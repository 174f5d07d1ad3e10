/**
 * The certifications page: expiry status, the featured/additional split,
 * the totals, the category badge colour and the empty state.
 *
 * Dates are millisecond timestamps, as `new Date(...)` compares them; the
 * current time is a parameter.
 */
module Certifications {
  import opened Common

  datatype Certification = Certification(
    id: string,
    name: string,
    issuer: string,
    expiryDate: Option<int>,
    credentialUrl: Option<string>,
    category: string,
    featured: bool,
    skills: seq<string>)

  datatype ExternalCert = ExternalCert(name: string, category: string, view: Option<string>)

  // ---------------------------------------------------------------------
  // Expiry
  // ---------------------------------------------------------------------

  /** 90 days in milliseconds. */
  const ThreeMonths: int := 90 * 24 * 60 * 60 * 1000

  /** `isExpired`: a certificate with an expiry date earlier than now. */
  predicate IsExpired(expiry: Option<int>, now: int) {
    match expiry
    case None => false
    case Some(t) => t < now
  }

  /** `isExpiringSoon`: still valid now, but no longer in 90 days' time. */
  predicate IsExpiringSoon(expiry: Option<int>, now: int) {
    match expiry
    case None => false
    case Some(t) => t > now && t <= now + ThreeMonths
  }

  /** The two warnings exclude each other, and neither applies without an expiry date. */
  lemma ExpiryWarningsExclusive(expiry: Option<int>, now: int)
    ensures !(IsExpired(expiry, now) && IsExpiringSoon(expiry, now))
    ensures expiry.None? ==> !IsExpired(expiry, now) && !IsExpiringSoon(expiry, now)
    ensures IsExpiringSoon(expiry, now) <==> expiry.Some? && now < expiry.value <= now + ThreeMonths
  {
  }

  /** A certificate expiring soon has expired once the 90 days (and one more millisecond) are over. */
  lemma ExpiringSoonExpires(expiry: Option<int>, now: int)
    requires IsExpiringSoon(expiry, now)
    ensures IsExpired(expiry, now + ThreeMonths + 1)
    ensures !IsExpired(expiry, now)
  {
  }

  datatype ExpiryLine = NoLine | ExpiredLine | ExpiringSoonLine | ExpiresLine

  /** The expiry line of a card: red "Expired", yellow "Expires", plain "Expires", or none. */
  function ExpiryLineOf(expiry: Option<int>, now: int): (l: ExpiryLine)
    ensures l == NoLine <==> expiry.None?
    ensures l == ExpiredLine <==> IsExpired(expiry, now)
    ensures l == ExpiringSoonLine <==> IsExpiringSoon(expiry, now)
    ensures l == ExpiresLine <==> expiry.Some? && !IsExpired(expiry, now) && !IsExpiringSoon(expiry, now)
  {
    if expiry.None? then NoLine
    else if IsExpired(expiry, now) then ExpiredLine
    else if IsExpiringSoon(expiry, now) then ExpiringSoonLine
    else ExpiresLine
  }

  // ---------------------------------------------------------------------
  // Featured and additional certificates
  // ---------------------------------------------------------------------

  predicate IsFeatured(c: Certification) { c.featured }
  predicate NotFeatured(c: Certification) { !c.featured }

  function FeaturedCertifications(certs: seq<Certification>): seq<Certification> {
    Filter(certs, IsFeatured)
  }

  function OtherCertifications(certs: seq<Certification>): seq<Certification> {
    Filter(certs, NotFeatured)
  }

  /** The featured and the other list split the certificates between them, each one once. */
  lemma FeaturedOtherPartition(certs: seq<Certification>)
    ensures |FeaturedCertifications(certs)| + |OtherCertifications(certs)| == |certs|
    ensures multiset(FeaturedCertifications(certs)) + multiset(OtherCertifications(certs)) == multiset(certs)
    ensures forall i :: 0 <= i < |FeaturedCertifications(certs)| ==> FeaturedCertifications(certs)[i].featured
    ensures forall i :: 0 <= i < |OtherCertifications(certs)| ==> !OtherCertifications(certs)[i].featured
  {
    FilterSplit(certs, IsFeatured, NotFeatured);
    forall x ensures (multiset(FeaturedCertifications(certs)) + multiset(OtherCertifications(certs)))[x] == multiset(certs)[x] {
      FilterMultiset(certs, IsFeatured, x);
      FilterMultiset(certs, NotFeatured, x);
    }
  }

  /** Both lists keep the order of the input: each distributes over concatenation. */
  lemma PartitionKeepsOrder(a: seq<Certification>, b: seq<Certification>)
    ensures FeaturedCertifications(a + b) == FeaturedCertifications(a) + FeaturedCertifications(b)
    ensures OtherCertifications(a + b) == OtherCertifications(a) + OtherCertifications(b)
  {
    FilterAppend(a, b, IsFeatured);
    FilterAppend(a, b, NotFeatured);
  }

  /** The heading of the second list: "Additional Certifications" after a featured list. */
  function OtherHeading(certs: seq<Certification>): (h: string)
    ensures h == "Additional Certifications" <==> |FeaturedCertifications(certs)| > 0
  {
    if |FeaturedCertifications(certs)| > 0 then "Additional Certifications" else "All Certifications"
  }

  // ---------------------------------------------------------------------
  // Totals and the empty state
  // ---------------------------------------------------------------------

  /** `externalCerts?.length || 0`. */
  function ExternalCount(ext: Option<seq<ExternalCert>>): nat {
    match ext
    case None => 0
    case Some(es) => |es|
  }

  predicate HasCredential(c: Certification) { Truthy(c.credentialUrl) }
  predicate HasViewLink(e: ExternalCert) { Truthy(e.view) }

  function VerifiedExternal(ext: Option<seq<ExternalCert>>): nat {
    match ext
    case None => 0
    case Some(es) => |Filter(es, HasViewLink)|
  }

  function TotalCertifications(certs: seq<Certification>, ext: Option<seq<ExternalCert>>): nat {
    |certs| + ExternalCount(ext)
  }

  /** `verifiedCount`: certificates with a credential link plus external ones with a view link. */
  function VerifiedCount(certs: seq<Certification>, ext: Option<seq<ExternalCert>>): (n: nat)
    ensures n <= TotalCertifications(certs, ext)
  {
    |Filter(certs, HasCredential)| + VerifiedExternal(ext)
  }

  /** Every certificate counts as verified exactly when each one carries its link. */
  lemma AllVerifiedIff(certs: seq<Certification>, ext: Option<seq<ExternalCert>>)
    ensures VerifiedCount(certs, ext) == TotalCertifications(certs, ext) <==>
      && (forall i :: 0 <= i < |certs| ==> HasCredential(certs[i]))
      && (ext.Some? ==> forall i :: 0 <= i < |ext.value| ==> HasViewLink(ext.value[i]))
  {
    FilterKeepsAllIff(certs, HasCredential);
    if ext.Some? {
      FilterKeepsAllIff(ext.value, HasViewLink);
    }
  }

  /** The empty state: no certificates and no (or an empty list of) external ones. */
  predicate ShowEmptyState(certs: seq<Certification>, ext: Option<seq<ExternalCert>>) {
    |certs| == 0 && (ext.None? || |ext.value| == 0)
  }

  /** The empty state shows exactly when the total is zero, and then no section has content. */
  lemma EmptyStateIffNothing(certs: seq<Certification>, ext: Option<seq<ExternalCert>>)
    ensures ShowEmptyState(certs, ext) <==> TotalCertifications(certs, ext) == 0
    ensures ShowEmptyState(certs, ext) ==>
      |FeaturedCertifications(certs)| == 0 && |OtherCertifications(certs)| == 0
  {
    FeaturedOtherPartition(certs);
  }

  // ---------------------------------------------------------------------
  // Category badge
  // ---------------------------------------------------------------------

  const CategoryColors: map<string, string> := map[
    "programming" := "bg-blue-100 text-blue-800 dark:bg-blue-900 dark:text-blue-200",
    "cloud" := "bg-sky-100 text-sky-800 dark:bg-sky-900 dark:text-sky-200",
    "data-science" := "bg-purple-100 text-purple-800 dark:bg-purple-900 dark:text-purple-200",
    "machine-learning" := "bg-indigo-100 text-indigo-800 dark:bg-indigo-900 dark:text-indigo-200",
    "devops" := "bg-green-100 text-green-800 dark:bg-green-900 dark:text-green-200",
    "security" := "bg-red-100 text-red-800 dark:bg-red-900 dark:text-red-200",
    "project-management" := "bg-orange-100 text-orange-800 dark:bg-orange-900 dark:text-orange-200",
    "tech" := "bg-teal-100 text-teal-800 dark:bg-teal-900 dark:text-teal-200",
    "internship" := "bg-orange-100 text-orange-800 dark:bg-orange-900 dark:text-orange-200",
    "course" := "bg-blue-100 text-blue-800 dark:bg-blue-900 dark:text-blue-200",
    "other" := "bg-gray-100 text-gray-800 dark:bg-gray-900 dark:text-gray-200"]

  /** A known category's own colour, and the "other" colour for any category not in the table. */
  function CategoryColor(category: string): (c: string)
    ensures category in CategoryColors ==> c == CategoryColors[category]
    ensures category !in CategoryColors ==> c == CategoryColors["other"]
  {
    if category in CategoryColors && CategoryColors[category] != "" then CategoryColors[category]
    else CategoryColors["other"]
  }

  /** The badge of a certificate: its colour and its upper-cased category. */
  function CategoryBadge(category: string): (b: (string, string))
    ensures b.0 == CategoryColor(category)
    ensures b.1 == BadgeText(category)
    ensures |b.1| == |category| && forall i :: 0 <= i < |b.1| ==> !('a' <= b.1[i] <= 'z')
  {
    (CategoryColor(category), BadgeText(category))
  }

  /**
   * The skills on a card: a featured card lists them all; an additional
   * card lists the first four and "+n more" for the rest.
   */
  function SkillBadges(c: Certification): (b: Capped<string>)
    ensures c.featured ==> b == Capped(c.skills, None)
    ensures !c.featured ==> |b.shown| == Min(4, |c.skills|) && b.shown == c.skills[..|b.shown|]
    ensures !c.featured ==> (b.more.Some? <==> |c.skills| > 4)
    ensures !c.featured && b.more.Some? ==> b.more.value == |c.skills| - 4
  {
    if c.featured then Capped(c.skills, None) else Cap(c.skills, 4)
  }

  /** Every card's badges and its hidden count account for all of its skills. */
  lemma SkillBadgesLoseNothing(c: Certification)
    ensures |SkillBadges(c).shown| + (match SkillBadges(c).more case Some(n) => n case None => 0) == |c.skills|
  {
    if !c.featured {
      CapLosesNothing(c.skills, 4);
    }
  }
}
