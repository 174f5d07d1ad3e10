/**
 * The contact-form endpoint (`/api/contact`): a per-IP fixed-window rate
 * limiter kept in a mutable map, the payload schema, the keyword filter for
 * spam and script injection, and the status code each request gets.
 *
 * The clock, the mailers and the CMS store are outside the model: `now` is
 * a parameter, and what `sendEmail` would return is passed in as
 * `emailSent`. The schema library's e-mail check is the parameter
 * `emailOk`.
 */
module ContactRoute {
  import opened Common

  /** Fifteen minutes, in milliseconds. */
  const WindowMs: int := 15 * 60 * 1000
  const MaxRequests: nat := 5

  datatype RateRecord = RateRecord(count: nat, resetTime: int)

  /** What one call of the limiter decides, and the table it leaves behind. */
  datatype Decision = Decision(allowed: bool, records: map<string, RateRecord>)

  /**
   * One call of `rateLimit(ip)` at time `now`: a first request, or one strictly
   * after the stored reset time, opens a new window; a full window refuses;
   * otherwise the count goes up by one.
   */
  function RateLimitStep(records: map<string, RateRecord>, ip: string, now: int): (d: Decision)
    ensures d.records.Keys == records.Keys + {ip}
    ensures forall other :: other in records && other != ip ==> d.records[other] == records[other]
    ensures (ip !in records || now > records[ip].resetTime) ==>
      d.allowed && d.records[ip] == RateRecord(1, now + WindowMs)
    ensures (ip in records && now <= records[ip].resetTime && records[ip].count >= MaxRequests) ==>
      !d.allowed && d.records == records
    ensures (ip in records && now <= records[ip].resetTime && records[ip].count < MaxRequests) ==>
      d.allowed && d.records[ip] == RateRecord(records[ip].count + 1, records[ip].resetTime)
  {
    if ip !in records || now > records[ip].resetTime then
      Decision(true, records[ip := RateRecord(1, now + WindowMs)])
    else if records[ip].count >= MaxRequests then
      Decision(false, records)
    else
      Decision(true, records[ip := records[ip].(count := records[ip].count + 1)])
  }

  /** No record ever holds more than the maximum number of requests. */
  ghost predicate CountsBounded(records: map<string, RateRecord>) {
    forall ip :: ip in records ==> records[ip].count <= MaxRequests
  }

  lemma RateLimitKeepsCountsBounded(records: map<string, RateRecord>, ip: string, now: int)
    requires CountsBounded(records)
    ensures CountsBounded(RateLimitStep(records, ip, now).records)
  {
  }

  /** Calls from one IP at the given times, in order: how many were allowed, and the final table. */
  function RunFrom(records: map<string, RateRecord>, ip: string, times: seq<int>): (nat, map<string, RateRecord>)
    decreases |times|
  {
    if times == [] then (0, records)
    else
      var d := RateLimitStep(records, ip, times[0]);
      var rest := RunFrom(d.records, ip, times[1..]);
      ((if d.allowed then 1 else 0) + rest.0, rest.1)
  }

  /**
   * Inside a live window, calls are allowed until the count reaches the
   * maximum and refused afterwards: exactly min(calls, 5 - count) pass.
   */
  lemma {:induction false} LiveWindowAllowance(records: map<string, RateRecord>, ip: string, times: seq<int>)
    requires ip in records && records[ip].count <= MaxRequests
    requires forall k :: 0 <= k < |times| ==> times[k] <= records[ip].resetTime
    ensures RunFrom(records, ip, times).0 == Min(|times|, MaxRequests - records[ip].count)
    ensures ip in RunFrom(records, ip, times).1
    ensures RunFrom(records, ip, times).1[ip] ==
      RateRecord(records[ip].count + Min(|times|, MaxRequests - records[ip].count), records[ip].resetTime)
    decreases |times|
  {
    if times != [] {
      var d := RateLimitStep(records, ip, times[0]);
      LiveWindowAllowance(d.records, ip, times[1..]);
    }
  }

  /**
   * A request that opens a window, followed by any number of requests up to
   * the window's end: at most five of them are allowed in all.
   */
  lemma FreshWindowAllowance(records: map<string, RateRecord>, ip: string, start: int, times: seq<int>)
    requires ip !in records || start > records[ip].resetTime
    requires forall k :: 0 <= k < |times| ==> times[k] <= start + WindowMs
    ensures RunFrom(records, ip, [start] + times).0 == Min(1 + |times|, MaxRequests)
  {
    var d := RateLimitStep(records, ip, start);
    assert ([start] + times)[1..] == times;
    LiveWindowAllowance(d.records, ip, times);
  }

  /** Requests from one IP never touch the record of another. */
  lemma {:induction false} RunKeepsOthers(records: map<string, RateRecord>, ip: string, times: seq<int>, other: string)
    requires other != ip && other in records
    ensures other in RunFrom(records, ip, times).1
    ensures RunFrom(records, ip, times).1[other] == records[other]
    decreases |times|
  {
    if times != [] {
      RunKeepsOthers(RateLimitStep(records, ip, times[0]).records, ip, times[1..], other);
    }
  }

  // ---------------------------------------------------------------------
  // Payload schema
  // ---------------------------------------------------------------------

  /** The kinds of JSON value, as the schema library names them in its type issues. */
  datatype JsonType = StringType | NumberType | BooleanType | NullType | ArrayType | ObjectType

  function TypeName(t: JsonType): string {
    match t
    case StringType => "string"
    case NumberType => "number"
    case BooleanType => "boolean"
    case NullType => "null"
    case ArrayType => "array"
    case ObjectType => "object"
  }

  type NonStringType = t: JsonType | !t.StringType? witness NumberType
  type NonObjectType = t: JsonType | !t.ObjectType? witness StringType

  /** A property of the parsed JSON body: absent, a string, or a value of some other kind. */
  datatype JsonField = Missing | Str(s: string) | NotString(kind: NonStringType)

  /** A JSON object; a key it does not hold reads as `undefined`. */
  type JsonObject = map<string, JsonField>

  function Get(obj: JsonObject, key: string): JsonField {
    if key in obj then obj[key] else Missing
  }

  /** The parsed request body: unparsable JSON, a JSON value that is not an object, or an object. */
  datatype Body = Unparsable | NotObject(kind: NonObjectType) | Object(fields: JsonObject)

  datatype FieldError = FieldError(field: string, message: string)

  /** The refinement a schema field applies once it knows it holds a string. */
  datatype Check =
    | Bounds(lo: nat, hi: nat, tooShort: string, tooLong: string)
    | MaxOnly(hi: nat, tooLong: string)
    | EmailFormat(invalid: string)
    | AnyString

  datatype FieldSpec = FieldSpec(key: string, optional: bool, check: Check)

  /** The contact schema, in its declaration order. */
  const ContactSchema: seq<FieldSpec> := [
    FieldSpec("name", false, Bounds(1, 100, "Name is required", "Name is too long")),
    FieldSpec("email", false, EmailFormat("Invalid email address")),
    FieldSpec("company", true, MaxOnly(100, "Company name is too long")),
    FieldSpec("subject", false, Bounds(1, 200, "Subject is required", "Subject is too long")),
    FieldSpec("message", false, Bounds(10, 2000, "Message must be at least 10 characters", "Message is too long")),
    FieldSpec("projectType", true, AnyString),
    FieldSpec("budget", true, AnyString),
    FieldSpec("timeline", true, AnyString)]

  predicate SaneCheck(c: Check) {
    c.Bounds? ==> c.lo <= c.hi
  }

  /**
   * The issues one field raises: a type issue when it is not a string (or is
   * absent and required), else each failed refinement. With sane bounds at
   * most one issue, always naming the field.
   */
  function FieldIssues(spec: FieldSpec, v: JsonField, emailOk: string -> bool): (r: seq<FieldError>)
    requires SaneCheck(spec.check)
    ensures |r| <= 1
    ensures forall i :: 0 <= i < |r| ==> r[i].field == spec.key
    ensures v.Missing? ==> (r == [] <==> spec.optional) && (r != [] ==> r[0].message == "Required")
    ensures v.NotString? ==> r == [FieldError(spec.key, "Expected string, received " + TypeName(v.kind))]
  {
    match v
    case Missing => if spec.optional then [] else [FieldError(spec.key, "Required")]
    case NotString(kind) => [FieldError(spec.key, "Expected string, received " + TypeName(kind))]
    case Str(s) =>
      match spec.check
      case Bounds(lo, hi, tooShort, tooLong) =>
        (if |s| < lo then [FieldError(spec.key, tooShort)] else []) +
        (if |s| > hi then [FieldError(spec.key, tooLong)] else [])
      case MaxOnly(hi, tooLong) => if |s| > hi then [FieldError(spec.key, tooLong)] else []
      case EmailFormat(invalid) => if emailOk(s) then [] else [FieldError(spec.key, invalid)]
      case AnyString => []
  }

  function Keys(specs: seq<FieldSpec>): seq<string> {
    if specs == [] then [] else [specs[0].key] + Keys(specs[1..])
  }

  predicate SaneSchema(specs: seq<FieldSpec>) {
    forall i :: 0 <= i < |specs| ==> SaneCheck(specs[i].check)
  }

  /** The issues of a whole object, field after field in schema order. */
  function Issues(specs: seq<FieldSpec>, obj: JsonObject, emailOk: string -> bool): (r: seq<FieldError>)
    requires SaneSchema(specs)
    ensures |r| <= |specs|
  {
    if specs == [] then []
    else FieldIssues(specs[0], Get(obj, specs[0].key), emailOk) + Issues(specs[1..], obj, emailOk)
  }

  /** Every issue names a field of the schema, and no field is named twice. */
  lemma {:induction false} IssuesOnePerField(specs: seq<FieldSpec>, obj: JsonObject, emailOk: string -> bool)
    requires SaneSchema(specs)
    requires forall i, j :: 0 <= i < j < |specs| ==> specs[i].key != specs[j].key
    ensures forall i :: 0 <= i < |Issues(specs, obj, emailOk)| ==> Issues(specs, obj, emailOk)[i].field in Keys(specs)
    ensures forall i, j :: 0 <= i < j < |Issues(specs, obj, emailOk)| ==>
      Issues(specs, obj, emailOk)[i].field != Issues(specs, obj, emailOk)[j].field
  {
    if specs != [] {
      IssuesOnePerField(specs[1..], obj, emailOk);
      KeysAt(specs[1..]);
      var head := FieldIssues(specs[0], Get(obj, specs[0].key), emailOk);
      var tail := Issues(specs[1..], obj, emailOk);
      assert forall k :: 0 <= k < |specs[1..]| ==> Keys(specs[1..])[k] == specs[k + 1].key;
      assert specs[0].key !in Keys(specs[1..]);
      assert Issues(specs, obj, emailOk) == head + tail;
    }
  }

  lemma {:induction false} KeysAt(specs: seq<FieldSpec>)
    ensures |Keys(specs)| == |specs|
    ensures forall k :: 0 <= k < |specs| ==> Keys(specs)[k] == specs[k].key
  {
    if specs != [] {
      KeysAt(specs[1..]);
    }
  }

  /** An object passes when no field raises an issue. */
  lemma {:induction false} IssuesEmptyIff(specs: seq<FieldSpec>, obj: JsonObject, emailOk: string -> bool)
    requires SaneSchema(specs)
    ensures Issues(specs, obj, emailOk) == [] <==>
      forall i :: 0 <= i < |specs| ==> FieldIssues(specs[i], Get(obj, specs[i].key), emailOk) == []
  {
    if specs != [] {
      IssuesEmptyIff(specs[1..], obj, emailOk);
      assert forall i :: 1 <= i < |specs| ==> specs[i] == specs[1..][i - 1];
    }
  }

  predicate StringWithin(v: JsonField, lo: nat, hi: nat) {
    v.Str? && lo <= |v.s| <= hi
  }

  predicate OptionalString(v: JsonField) {
    v.Missing? || v.Str?
  }

  /** The payloads the contact schema accepts, stated field by field. */
  ghost predicate Acceptable(obj: JsonObject, emailOk: string -> bool) {
    && StringWithin(Get(obj, "name"), 1, 100)
    && Get(obj, "email").Str? && emailOk(Get(obj, "email").s)
    && (Get(obj, "company").Missing? || StringWithin(Get(obj, "company"), 0, 100))
    && StringWithin(Get(obj, "subject"), 1, 200)
    && StringWithin(Get(obj, "message"), 10, 2000)
    && OptionalString(Get(obj, "projectType"))
    && OptionalString(Get(obj, "budget"))
    && OptionalString(Get(obj, "timeline"))
  }

  /** The contact schema's bounds are ordered and its keys distinct. */
  lemma ContactSchemaWellFormed()
    ensures SaneSchema(ContactSchema)
    ensures forall i, j :: 0 <= i < j < |ContactSchema| ==> ContactSchema[i].key != ContactSchema[j].key
  {
  }

  /** What the contact schema asks of its field at position `i`. */
  ghost predicate FieldAcceptable(i: nat, obj: JsonObject, emailOk: string -> bool)
    requires i < |ContactSchema|
  {
    var v := Get(obj, ContactSchema[i].key);
    if i == 0 then StringWithin(v, 1, 100)
    else if i == 1 then v.Str? && emailOk(v.s)
    else if i == 2 then v.Missing? || StringWithin(v, 0, 100)
    else if i == 3 then StringWithin(v, 1, 200)
    else if i == 4 then StringWithin(v, 10, 2000)
    else OptionalString(v)
  }

  /** A schema field raises no issue exactly when its value is acceptable. */
  lemma FieldIssuesAt(obj: JsonObject, emailOk: string -> bool, i: nat)
    requires i < |ContactSchema|
    ensures SaneCheck(ContactSchema[i].check)
    ensures FieldIssues(ContactSchema[i], Get(obj, ContactSchema[i].key), emailOk) == [] <==> FieldAcceptable(i, obj, emailOk)
  {
  }

  /** The field-by-field reading of `Acceptable`. */
  lemma AcceptableFieldwise(obj: JsonObject, emailOk: string -> bool)
    ensures Acceptable(obj, emailOk) <==> forall i :: 0 <= i < |ContactSchema| ==> FieldAcceptable(i, obj, emailOk)
  {
    assert ContactSchema[0].key == "name" && ContactSchema[1].key == "email" && ContactSchema[2].key == "company";
    assert ContactSchema[3].key == "subject" && ContactSchema[4].key == "message";
    assert ContactSchema[5].key == "projectType" && ContactSchema[6].key == "budget" && ContactSchema[7].key == "timeline";
    if forall i :: 0 <= i < |ContactSchema| ==> FieldAcceptable(i, obj, emailOk) {
      assert FieldAcceptable(0, obj, emailOk) && FieldAcceptable(1, obj, emailOk) && FieldAcceptable(2, obj, emailOk);
      assert FieldAcceptable(3, obj, emailOk) && FieldAcceptable(4, obj, emailOk) && FieldAcceptable(5, obj, emailOk);
      assert FieldAcceptable(6, obj, emailOk) && FieldAcceptable(7, obj, emailOk);
    }
    if Acceptable(obj, emailOk) {
      forall i | 0 <= i < |ContactSchema| ensures FieldAcceptable(i, obj, emailOk) {
        assert i in {0, 1, 2, 3, 4, 5, 6, 7};
      }
    }
  }

  /** The contact schema reports nothing exactly for the acceptable payloads. */
  lemma ContactSchemaAcceptsExactly(obj: JsonObject, emailOk: string -> bool)
    ensures SaneSchema(ContactSchema)
    ensures Issues(ContactSchema, obj, emailOk) == [] <==> Acceptable(obj, emailOk)
  {
    ContactSchemaWellFormed();
    IssuesEmptyIff(ContactSchema, obj, emailOk);
    forall i | 0 <= i < |ContactSchema|
      ensures FieldIssues(ContactSchema[i], Get(obj, ContactSchema[i].key), emailOk) == [] <==> FieldAcceptable(i, obj, emailOk)
    {
      FieldIssuesAt(obj, emailOk, i);
    }
    AcceptableFieldwise(obj, emailOk);
  }

  /** A rejected payload gets one entry per failing field, each naming a schema field. */
  lemma ContactSchemaOneEntryPerField(obj: JsonObject, emailOk: string -> bool)
    ensures SaneSchema(ContactSchema)
    ensures |Issues(ContactSchema, obj, emailOk)| <= 8
    ensures forall i :: 0 <= i < |Issues(ContactSchema, obj, emailOk)| ==>
      Issues(ContactSchema, obj, emailOk)[i].field in Keys(ContactSchema)
    ensures forall i, j :: 0 <= i < j < |Issues(ContactSchema, obj, emailOk)| ==>
      Issues(ContactSchema, obj, emailOk)[i].field != Issues(ContactSchema, obj, emailOk)[j].field
  {
    ContactSchemaWellFormed();
    IssuesOnePerField(ContactSchema, obj, emailOk);
  }

  // ---------------------------------------------------------------------
  // Keyword filter
  // ---------------------------------------------------------------------

  /** The alternatives of the four case-insensitive suspicious patterns. */
  const SuspiciousKeywords: seq<string> := [
    "viagra", "cialis", "pharmacy",
    "bitcoin", "cryptocurrency", "investment",
    "urgent", "act now", "limited time",
    "<script", "javascript:", "onclick"]

  /** The lower-cased "subject message" contains one of the keywords. */
  predicate IsSuspicious(subject: string, message: string) {
    ContainsAny(Lower(subject + " " + message), SuspiciousKeywords)
  }

  /** Some word of the list occurs in the text. */
  predicate ContainsAny(text: string, words: seq<string>) {
    exists k | 0 <= k < |words| :: Contains(text, words[k])
  }

  /** Lower-casing is done per character, so it splits over the "subject message" text. */
  lemma LowerJoined(subject: string, message: string)
    ensures Lower(subject + " " + message) == Lower(subject) + " " + Lower(message)
  {
  }

  /** The patterns ignore case: capitals in the subject or message change nothing. */
  lemma SuspicionIgnoresCase(subject: string, message: string)
    ensures IsSuspicious(subject, message) <==> IsSuspicious(Lower(subject), Lower(message))
  {
    LowerJoined(subject, message);
    LowerJoined(Lower(subject), Lower(message));
    LowerTwice(subject);
    LowerTwice(message);
  }

  lemma LowerTwice(s: string)
    ensures Lower(Lower(s)) == Lower(s)
  {
  }

  /** A keyword anywhere in the message, in any case, flags the request whatever the subject. */
  lemma KeywordInMessageFlags(subject: string, message: string, k: nat, at: nat)
    requires k < |SuspiciousKeywords|
    requires OccursAt(Lower(message), SuspiciousKeywords[k], at)
    ensures IsSuspicious(subject, message)
  {
    LowerJoined(subject, message);
    OccursInSuffix(Lower(subject) + " ", Lower(message), SuspiciousKeywords[k], at);
    FoundWord(Lower(subject + " " + message), SuspiciousKeywords, k, |subject| + 1 + at);
  }

  /** An occurrence in the tail of a text is an occurrence in the whole text, shifted. */
  lemma OccursInSuffix(front: string, tail: string, w: string, at: nat)
    requires OccursAt(tail, w, at)
    ensures OccursAt(front + tail, w, |front| + at)
  {
    assert (front + tail)[|front| + at..|front| + at + |w|] == tail[at..at + |w|];
  }

  lemma FoundWord(text: string, words: seq<string>, k: nat, at: nat)
    requires k < |words| && OccursAt(text, words[k], at)
    ensures ContainsAny(text, words)
  {
    assert Contains(text, words[k]);
  }

  // ---------------------------------------------------------------------
  // Responses
  // ---------------------------------------------------------------------

  datatype Reply =
    | TooManyRequests
    | ValidationFailed(details: seq<FieldError>)
    | Flagged
    | Received(emailSent: bool)
    | InternalError
    | MethodNotAllowed

  function Status(r: Reply): int {
    match r
    case TooManyRequests => 429
    case ValidationFailed(_) => 400
    case Flagged => 400
    case Received(_) => 200
    case InternalError => 500
    case MethodNotAllowed => 405
  }

  /** The reply together with the side effects the handler attempted. */
  datatype Outcome = Outcome(reply: Reply, stored: bool, autoReplied: bool)

  /**
   * Everything `POST` does after the rate limiter let the request through.
   * `emailSent` is what the notification mailer reports; storing and the
   * auto-reply cannot change the reply.
   */
  function HandleAdmitted(body: Body, emailOk: string -> bool, emailSent: bool): (o: Outcome)
    ensures body.Unparsable? ==> o == Outcome(InternalError, false, false)
    ensures body.NotObject? ==>
      o == Outcome(ValidationFailed([FieldError("", "Expected object, received " + TypeName(body.kind))]), false, false)
    ensures body.Object? ==> SaneSchema(ContactSchema)
    ensures body.Object? && !Acceptable(body.fields, emailOk) ==>
      o == Outcome(ValidationFailed(Issues(ContactSchema, body.fields, emailOk)), false, false)
      && o.reply.details != []
    ensures (body.Object? && Acceptable(body.fields, emailOk)
      && IsSuspicious(Get(body.fields, "subject").s, Get(body.fields, "message").s)) ==>
      o == Outcome(Flagged, false, false)
    ensures Status(o.reply) == 200 <==>
      body.Object? && Acceptable(body.fields, emailOk)
      && !IsSuspicious(Get(body.fields, "subject").s, Get(body.fields, "message").s)
    ensures Status(o.reply) == 200 ==> o == Outcome(Received(emailSent), true, emailSent)
    ensures o.stored <==> Status(o.reply) == 200
  {
    match body
    case Unparsable => Outcome(InternalError, false, false)
    case NotObject(kind) => Outcome(ValidationFailed([FieldError("", "Expected object, received " + TypeName(kind))]), false, false)
    case Object(obj) =>
      ContactSchemaAcceptsExactly(obj, emailOk);
      var errs := Issues(ContactSchema, obj, emailOk);
      if errs != [] then Outcome(ValidationFailed(errs), false, false)
      else if IsSuspicious(Get(obj, "subject").s, Get(obj, "message").s) then Outcome(Flagged, false, false)
      else Outcome(Received(emailSent), true, emailSent)
  }

  /**
   * The keyword filter's verdict on a payload the schema accepts: it is
   * refused with 400 exactly when the subject and message hold a keyword,
   * and accepted with 200 otherwise.
   */
  lemma ValidPayloadFlaggedIff(obj: JsonObject, emailOk: string -> bool, emailSent: bool)
    requires Acceptable(obj, emailOk)
    ensures var o := HandleAdmitted(Object(obj), emailOk, emailSent);
      && (Status(o.reply) == 400 <==> IsSuspicious(Get(obj, "subject").s, Get(obj, "message").s))
      && (Status(o.reply) == 200 <==> !IsSuspicious(Get(obj, "subject").s, Get(obj, "message").s))
  {
  }

  /** Only subject and message are inspected: a valid name and company never decide the reply. */
  lemma NameAndCompanyNotInspected(obj: JsonObject, name: string, company: string,
                                   emailOk: string -> bool, emailSent: bool)
    requires StringWithin(Get(obj, "name"), 1, 100) && 1 <= |name| <= 100
    requires (Get(obj, "company").Missing? || StringWithin(Get(obj, "company"), 0, 100)) && |company| <= 100
    ensures HandleAdmitted(Object(obj), emailOk, emailSent)
         == HandleAdmitted(Object(obj["name" := Str(name)]["company" := Str(company)]), emailOk, emailSent)
  {
    var obj' := obj["name" := Str(name)]["company" := Str(company)];
    ContactSchemaWellFormed();
    FieldIssuesUntouched(obj, name, company, emailOk);
    IssuesUnchanged(ContactSchema, obj, obj', emailOk);
    OtherKeysUntouched(obj, name, company);
    assert ContactSchema[3].key == "subject" && ContactSchema[4].key == "message";
    SameIssuesSameOutcome(obj, obj', emailOk, emailSent);
  }

  /** Rewriting a valid name and company leaves every field's issues as they were. */
  lemma FieldIssuesUntouched(obj: JsonObject, name: string, company: string, emailOk: string -> bool)
    requires StringWithin(Get(obj, "name"), 1, 100) && 1 <= |name| <= 100
    requires (Get(obj, "company").Missing? || StringWithin(Get(obj, "company"), 0, 100)) && |company| <= 100
    ensures SaneSchema(ContactSchema)
    ensures var obj' := obj["name" := Str(name)]["company" := Str(company)];
      forall i :: 0 <= i < |ContactSchema| ==>
        FieldIssues(ContactSchema[i], Get(obj, ContactSchema[i].key), emailOk)
        == FieldIssues(ContactSchema[i], Get(obj', ContactSchema[i].key), emailOk)
  {
    var obj' := obj["name" := Str(name)]["company" := Str(company)];
    ContactSchemaWellFormed();
    OtherKeysUntouched(obj, name, company);
    forall i | 0 <= i < |ContactSchema|
      ensures FieldIssues(ContactSchema[i], Get(obj, ContactSchema[i].key), emailOk)
           == FieldIssues(ContactSchema[i], Get(obj', ContactSchema[i].key), emailOk)
    {
      if i == 0 || i == 2 {
        FieldIssuesAt(obj, emailOk, i);
        FieldIssuesAt(obj', emailOk, i);
      }
    }
  }

  /** Objects with the same issues and the same subject and message are handled alike. */
  lemma SameIssuesSameOutcome(a: JsonObject, b: JsonObject, emailOk: string -> bool, emailSent: bool)
    requires SaneSchema(ContactSchema)
    requires Issues(ContactSchema, a, emailOk) == Issues(ContactSchema, b, emailOk)
    requires Get(a, "subject") == Get(b, "subject") && Get(a, "message") == Get(b, "message")
    ensures HandleAdmitted(Object(a), emailOk, emailSent) == HandleAdmitted(Object(b), emailOk, emailSent)
  {
  }

  /** Rewriting name and company leaves every other schema key as it was. */
  lemma OtherKeysUntouched(obj: JsonObject, name: string, company: string)
    ensures var obj' := obj["name" := Str(name)]["company" := Str(company)];
      && Get(obj', "name") == Str(name) && Get(obj', "company") == Str(company)
      && forall i :: 2 < i < |ContactSchema| || i == 1 ==> Get(obj', ContactSchema[i].key) == Get(obj, ContactSchema[i].key)
  {
    assert ContactSchema[0].key == "name" && ContactSchema[2].key == "company";
    forall i | 2 < i < |ContactSchema| || i == 1
      ensures ContactSchema[i].key != "name" && ContactSchema[i].key != "company"
    {
      assert i in {1, 3, 4, 5, 6, 7};
      assert ContactSchema[i].key[0] !in {'n', 'c'};
    }
  }

  /** Fields whose issues agree give the same report. */
  lemma {:induction false} IssuesUnchanged(specs: seq<FieldSpec>, a: JsonObject, b: JsonObject, emailOk: string -> bool)
    requires SaneSchema(specs)
    requires forall i :: 0 <= i < |specs| ==>
      FieldIssues(specs[i], Get(a, specs[i].key), emailOk) == FieldIssues(specs[i], Get(b, specs[i].key), emailOk)
    ensures Issues(specs, a, emailOk) == Issues(specs, b, emailOk)
  {
    if specs != [] {
      assert forall i :: 1 <= i < |specs| ==> specs[i] == specs[1..][i - 1];
      IssuesUnchanged(specs[1..], a, b, emailOk);
    }
  }

  /** `x-forwarded-for || x-real-ip || "unknown"`. */
  function ClientIp(forwardedFor: Option<string>, realIp: Option<string>): (ip: string)
    ensures Truthy(forwardedFor) ==> ip == forwardedFor.value
    ensures !Truthy(forwardedFor) && Truthy(realIp) ==> ip == realIp.value
    ensures !Truthy(forwardedFor) && !Truthy(realIp) ==> ip == "unknown"
  {
    OrElse(forwardedFor, OrElse(realIp, "unknown"))
  }

  datatype Verb = GET | POST | PUT | DELETE

  /** The route module: its rate-limit table lives as long as the server process. */
  class ContactEndpoint {
    var rateLimitMap: map<string, RateRecord>

    constructor ()
      ensures rateLimitMap == map[]
    {
      rateLimitMap := map[];
    }

    /** `rateLimit(ip)`: decide and update the table in place. */
    method RateLimit(ip: string, now: int) returns (allowed: bool)
      modifies this
      ensures allowed == RateLimitStep(old(rateLimitMap), ip, now).allowed
      ensures rateLimitMap == RateLimitStep(old(rateLimitMap), ip, now).records
    {
      var found := ip in rateLimitMap;
      if !found || now > rateLimitMap[ip].resetTime {
        rateLimitMap := rateLimitMap[ip := RateRecord(1, now + WindowMs)];
        return true;
      }
      var record := rateLimitMap[ip];
      if record.count >= MaxRequests {
        return false;
      }
      rateLimitMap := rateLimitMap[ip := record.(count := record.count + 1)];
      allowed := true;
    }

    /**
     * `POST`: the limiter runs before the body is read, so a refused request
     * gets 429 whatever it contains, and every admitted request, valid or
     * not, has used up quota.
     */
    method Post(forwardedFor: Option<string>, realIp: Option<string>, now: int,
                body: Body, emailOk: string -> bool, emailSent: bool) returns (o: Outcome)
      modifies this
      ensures var d := RateLimitStep(old(rateLimitMap), ClientIp(forwardedFor, realIp), now);
        && rateLimitMap == d.records
        && (!d.allowed ==> o == Outcome(TooManyRequests, false, false))
        && (d.allowed ==> o == HandleAdmitted(body, emailOk, emailSent))
    {
      var ip := ClientIp(forwardedFor, realIp);
      var allowed := RateLimit(ip, now);
      if !allowed {
        return Outcome(TooManyRequests, false, false);
      }
      o := HandleAdmitted(body, emailOk, emailSent);
    }

    /** The route's entry point: `GET`, `PUT` and `DELETE` answer 405 and leave the table alone. */
    method Handle(verb: Verb, forwardedFor: Option<string>, realIp: Option<string>, now: int,
                  body: Body, emailOk: string -> bool, emailSent: bool) returns (o: Outcome)
      modifies this
      ensures verb != POST ==> o == Outcome(MethodNotAllowed, false, false) && rateLimitMap == old(rateLimitMap)
      ensures verb == POST ==> var d := RateLimitStep(old(rateLimitMap), ClientIp(forwardedFor, realIp), now);
        && rateLimitMap == d.records
        && (!d.allowed ==> o == Outcome(TooManyRequests, false, false))
        && (d.allowed ==> o == HandleAdmitted(body, emailOk, emailSent))
      ensures Status(o.reply) in {200, 400, 405, 429, 500}
    {
      if verb == POST {
        o := Post(forwardedFor, realIp, now, body, emailOk, emailSent);
      } else {
        o := Outcome(MethodNotAllowed, false, false);
      }
    }
  }
}
