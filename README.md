# Vaibhav Suman portfolio: a Dafny model of its data logic

This project models the logic of a Next.js portfolio site and proves properties of it. Rendering, animation and styling are not modelled. What is modelled:

- **Contact API route.** It is modelled in `contact_route.dfy`.
  - The per-IP rate limiter allows five requests per fifteen-minute window.
  - The zod schema checks each field.
  - A keyword filter flags spam.
  - The reply codes are 200, 400, 405, 429 and 500.
- **Contact form.** It is modelled in `contact_client.dfy`.
  - `validateForm` checks the fields, including the e-mail pattern.
  - The form state is a class with the input and submit handlers.
- **Pages.** Each page has its own module. Each models the page's filters, stable comparator sorts, counts, badges and toggle state.
  - Publications, including the h-index loop.
  - Projects.
  - Blog.
  - About.
  - Experience.
  - Certifications.
- **Home-page sections.** Featured publications and featured projects.
- **Accessibility helpers.** Arrow-key navigation, the focus stack and focus trap, ARIA reference lists, and the hex colour parser.
- **SEO helpers.** The metadata merge, page metadata, structured data, and sitemap entries.
- **Sitemaps.** The `sitemap()` metadata route and the `/api/sitemap` XML route.
- **Deployment check.** `scripts/check-deployment.js`, which reports missing environment variables and sets the exit code.

`common.dfy` holds the shared pieces:

- `Option`.
- ASCII case mapping and trimming.
- `Filter`.
- A stable insertion sort `SortBy`. It stands in for `Array.prototype.sort` applied to a freshly filtered copy.
- Overflow badges (`Cap`, `MoreLabel`).
- Decimal rendering (`NatToString`).
- `Join` and sums.

How the model represents the environment:

- Times are integers, or `(year, month)` pairs. The current time is a parameter.
- Outcomes the code cannot see are parameters: the mailer, the CMS store, the fetch, zod's `.email()` check and the process environment.
- A JavaScript key that is *absent* from an object is told apart from one that is *present but undefined* (the `Field` type in `Seo`). The object spread in `generateMetadata` depends on the difference.

## Model

| member | source | states |
|---|---|---|
| ContactRoute.RateLimitStep | src/app/api/contact/route.ts:27-45 | A first request, or one after `resetTime`, is allowed and opens a window with count 1 ending 15 min later. At the limit the request is refused and the record unchanged. Otherwise the count rises by one with `resetTime` kept. Other IPs' records never change. |
| ContactRoute.RateLimitKeepsCountsBounded | src/app/api/contact/route.ts:39-44 | No record's count ever exceeds 5. |
| ContactRoute.LiveWindowAllowance | src/app/api/contact/route.ts:30-44 | Inside one live window, a run of requests gets exactly `min(n, 5 - count)` allowed. It leaves the record at that count with the same `resetTime`. |
| ContactRoute.FreshWindowAllowance | src/app/api/contact/route.ts:34-44 | Requests inside a window that a fresh request opened get at most 5 allowed, exactly `min(1 + n, 5)`. |
| ContactRoute.RunKeepsOthers | src/app/api/contact/route.ts:32-44 | Any run of requests from one IP leaves every other IP's record untouched. |
| ContactRoute.FieldIssues | src/app/api/contact/route.ts:7-22 | A field yields at most one issue, and it names that field. An absent field gives "Required" iff it is not optional. A value of another kind gives "Expected string, received <kind>", the kind being number, boolean, null, array or object. |
| ContactRoute.Issues | src/app/api/contact/route.ts:7-22 | An object yields at most one issue per schema field. |
| ContactRoute.IssuesOnePerField | src/app/api/contact/route.ts:368-378 | Every reported issue names a schema field, and no field is reported twice. |
| ContactRoute.IssuesEmptyIff | src/app/api/contact/route.ts:280-281 | An object passes exactly when every field passes. |
| ContactRoute.ContactSchemaWellFormed | src/app/api/contact/route.ts:7-22 | The schema's bounds are ordered and its eight keys are distinct. |
| ContactRoute.ContactSchemaAcceptsExactly | src/app/api/contact/route.ts:7-22 | The payload passes iff all of these hold: name is a string of 1-100 characters; e-mail is accepted; company is absent or at most 100 characters; subject is 1-200 characters; message is 10-2000 characters; project type, budget and timeline are absent or strings. |
| ContactRoute.ContactSchemaOneEntryPerField | src/app/api/contact/route.ts:364-378 | A rejected payload gets at most eight entries, one per failing field, each naming a schema field. |
| ContactRoute.HandleAdmitted | src/app/api/contact/route.ts:279-385 | Unparsable JSON gives 500. A body that is not an object gives 400 with the one issue "Expected object, received <kind>". An invalid object gives 400 with exactly the schema issues as details, and nothing is stored. A valid payload whose subject and message hold a keyword gives 400 "flagged", with nothing stored. 200 is returned iff the payload is valid and not suspicious; then the message is stored, and the auto-reply is attempted iff the e-mail was sent. |
| ContactRoute.IsSuspicious | src/app/api/contact/route.ts:287-298 | Defined as: the lower-cased "subject message" text contains one of the twelve keywords of the four patterns. Its partners are `SuspicionIgnoresCase` and `KeywordInMessageFlags`. |
| ContactRoute.ValidPayloadFlaggedIff | src/app/api/contact/route.ts:287-306 | A payload the schema accepts gets 400 iff the lower-cased subject and message hold a keyword, and 200 otherwise. |
| ContactRoute.SuspicionIgnoresCase | src/app/api/contact/route.ts:287-298 | Capitals in the subject or message never change the verdict, as the patterns carry the `i` flag and the text is lower-cased. |
| ContactRoute.KeywordInMessageFlags | src/app/api/contact/route.ts:287-298 | A keyword anywhere in the message, in any case, flags the request whatever the subject. |
| ContactRoute.NameAndCompanyNotInspected | src/app/api/contact/route.ts:287-298 | Changing a valid name or company never changes the reply. |
| ContactRoute.IssuesUnchanged | src/app/api/contact/route.ts:7-22 | Objects whose fields give the same issues give the same report. |
| ContactRoute.ClientIp | src/app/api/contact/route.ts:269-272 | The client IP is `x-forwarded-for`, else `x-real-ip`, else "unknown". Empty headers count as missing. |
| ContactRoute.ContactEndpoint.constructor | src/app/api/contact/route.ts:25 | The rate-limit table starts empty. |
| ContactRoute.ContactEndpoint.RateLimit | src/app/api/contact/route.ts:27-45 | Updates the table in place exactly as `RateLimitStep` decides. |
| ContactRoute.ContactEndpoint.Post | src/app/api/contact/route.ts:266-385 | Rate limiting runs before the body is read. An over-limit request gets 429 whatever its body, and an invalid one still uses quota. |
| ContactRoute.ContactEndpoint.Handle | src/app/api/contact/route.ts:390-400 | GET, PUT and DELETE answer 405 and leave the table alone. A POST updates the table as `RateLimitStep` decides and gets 429 when refused, otherwise the `HandleAdmitted` reply. Every reply is 200, 400, 405, 429 or 500. |
| ContactClient.FormData.With | src/app/contact/ContactClient.tsx:124 | Editing a field changes that field only. |
| ContactClient.EmailRegexIff | src/app/contact/ContactClient.tsx:100 | The anchored e-mail pattern matches iff all of these hold: there is no whitespace; there is exactly one '@' with text before it; after the '@' there is a '.' that is neither first nor last. |
| ContactClient.FormErrors | src/app/contact/ContactClient.tsx:91-115 | The errors object only ever has entries for name, e-mail, subject and message. |
| ContactClient.FormErrorsPerField | src/app/contact/ContactClient.tsx:91-115 | The errors object holds exactly one entry per field that has an error, with that field's message. |
| ContactClient.ErrorsReadCheckedFields | src/app/contact/ContactClient.tsx:91-112 | Only name, e-mail, subject and message decide the errors. |
| ContactClient.OnlyCheckedFieldsBlock | src/app/contact/ContactClient.tsx:91-116 | Company, project type, budget and timeline never get an error and never change the errors. |
| ContactClient.BlankTakesPrecedence | src/app/contact/ContactClient.tsx:94-112 | A field that is blank after trimming gets its "is required" message, ahead of the format and length checks. |
| ContactClient.EmailAcceptance | src/app/contact/ContactClient.tsx:98-102 | A non-blank e-mail is accepted iff the pattern matches it. |
| ContactClient.MessageAcceptance | src/app/contact/ContactClient.tsx:108-112 | A non-blank message is accepted iff its trimmed length is at least 10. |
| ContactClient.EmptyFormIsRejected | src/app/contact/ContactClient.tsx:153-162 | The reset form fails validation on exactly the four checked fields. |
| ContactClient.ContactForm.constructor | src/app/contact/ContactClient.tsx:42-57 | The form starts empty, with no errors, idle and not submitting. |
| ContactClient.ContactForm.ValidateForm | src/app/contact/ContactClient.tsx:91-116 | Stores the computed errors and returns true exactly when there are none. Nothing else changes. |
| ContactClient.ContactForm.HandleInputChange | src/app/contact/ContactClient.tsx:118-130 | Sets the edited field and clears only that field's error, if it had one. |
| ContactClient.ContactForm.HandleSubmit | src/app/contact/ContactClient.tsx:132-172 | An invalid form sends nothing. After a send, `isSubmitting` is false. An ok response gives success and a reset form; anything else gives error and keeps the form. |
| ContactClient.EditLeavesOthers | src/app/contact/ContactClient.tsx:118-130 | An edit leaves every other field's value and error alone. |
| Publications.FilteredPublications | src/app/publications/PublicationsClient.tsx:200-234 | The result is a permutation of the kept publications. A publication is kept iff it matches the term and the type and category selections. |
| Publications.DefaultShowsAll | src/app/publications/PublicationsClient.tsx:201-214 | With an empty term and both selectors "all", every publication is shown. |
| Publications.Comparator | src/app/publications/PublicationsClient.tsx:220-230 | Every sort option gives a total preorder. "year", "citations" and "impact" put larger keys first; an unknown option ties everything. |
| Publications.SortedByKey | src/app/publications/PublicationsClient.tsx:220-230 | "year", "citations" and "impact" give non-increasing keys. A missing impact factor counts as 0. |
| Publications.SortedByTitle | src/app/publications/PublicationsClient.tsx:228-229 | "title" gives titles in ascending order. |
| Publications.CountAppend | src/app/publications/PublicationsClient.tsx:260-274 | The count of citation values at or above a threshold adds up over concatenation. |
| Publications.CountAntitone | src/app/publications/PublicationsClient.tsx:260-274 | Raising the threshold never raises the count. |
| Publications.CountPermutation | src/app/publications/PublicationsClient.tsx:261-263 | The count does not depend on order. |
| Publications.HIndexUnique | src/app/publications/PublicationsClient.tsx:260-274 | A list has at most one h-index. |
| Publications.HIndexOrderIndependent | src/app/publications/PublicationsClient.tsx:261-263 | The h-index does not depend on the order of the citations. |
| Publications.HIndexOfNothing | src/app/publications/PublicationsClient.tsx:265-273 | The h-index of no publications is 0. |
| Publications.HIndexSquareBound | src/app/publications/PublicationsClient.tsx:260-274 | h * h never exceeds the total citations. |
| Publications.CalculateHIndex | src/app/publications/PublicationsClient.tsx:260-274 | The sort-then-scan loop returns h such that at least h publications have at least h citations, and not h + 1 with at least h + 1. |
| Publications.HIndexOfSorted | src/app/publications/PublicationsClient.tsx:264-272 | On a list sorted in descending order, the index where the scan stops is the h-index. |
| Publications.TotalCitationsIsTotal | src/app/publications/PublicationsClient.tsx:239-242 | The `reduce` sum equals the total of the citation list. |
| Publications.ComputeStats | src/app/publications/PublicationsClient.tsx:238-256 | The stats are the list length, the citation sum and the h-index. The h-index lies between 0 and the length, and its square is at most the citation sum. |
| Publications.ToggleAbstract | src/app/publications/PublicationsClient.tsx:365-367 | Pressing a card opens it iff it was closed. At most one abstract is open. |
| Projects.StatusSlug | src/app/projects/ProjectsClient.tsx:511 | The status a filter label selects keeps the label's length and has no capitals. A label without a space is just lower-cased. Otherwise its first space becomes '-' and every other character is lower-cased, so "In Progress" selects "in-progress". |
| Projects.BadgeUndoesSlug | src/app/projects/ProjectsClient.tsx:250 | A status chosen by its filter label shows on the card as that label in capitals: the badge undoes the label-to-status mapping (at lines 510-511). |
| Projects.FilteredAndSorted | src/app/projects/ProjectsClient.tsx:502-533 | The result is a permutation of the kept projects, so it is never longer than the list. A project is kept iff it matches the query, category and status. |
| Projects.DefaultShowsAll | src/app/projects/ProjectsClient.tsx:503-514 | With an empty query and "All"/"All", every project is shown. |
| Projects.Comparator | src/app/projects/ProjectsClient.tsx:517-530 | Every sort option gives a total preorder. "newest" and "stars" put larger keys first, "oldest" smaller; an unknown option ties everything. |
| Projects.SortOrders | src/app/projects/ProjectsClient.tsx:517-530 | "newest" gives non-increasing start dates and "oldest" non-decreasing. "stars" gives non-increasing stars, with missing counted as 0. |
| Projects.SortByName | src/app/projects/ProjectsClient.tsx:523-524 | "name" gives titles in ascending order. |
| Projects.ProjectFilters.constructor | src/app/projects/ProjectsClient.tsx:488-491 | The initial state has no active filters. |
| Projects.ProjectFilters.ClearFilters | src/app/projects/ProjectsClient.tsx:535-542 | Clearing always leaves `hasActiveFilters` false. |
| Projects.ProjectFilters.HasActiveFilters | src/app/projects/ProjectsClient.tsx:542 | Defined as: a search query, a category or status other than "All", or a sort other than "newest". Its partners are `ClearFilters` and `Shown`. |
| Projects.ProjectFilters.Shown | src/app/projects/ProjectsClient.tsx:542 | Shows at most the total ("Showing n of m", line 709). Without active filters it shows every project. |
| Projects.TechBadges | src/app/projects/ProjectsClient.tsx:286-303 | Shows the first min(4, n) technologies, and "+(n-4)" exactly when n > 4. |
| Blog.CategoryCount | src/app/blog/BlogClient.tsx:169-176 | "All" counts every post. A named category counts the posts in it, tallied one post at a time by `PostsIn`, and so never more than every post. |
| Blog.CategoryCountIsPositions | src/app/blog/BlogClient.tsx:169-176 | A named category's count is the number of positions in the post list that hold a post of that category. |
| Blog.CategoryCounts | src/app/blog/BlogClient.tsx:169-176 | One count per category name, in order. |
| Blog.Categories | src/app/blog/BlogClient.tsx:169-176 | Six buttons: "All" with every post, then the five named categories in order. |
| Blog.NamedCountsAddUp | src/app/blog/BlogClient.tsx:169-176 | When every post is in a named category, the five named counts add up to the "All" count. |
| Blog.FilteredAndSorted | src/app/blog/BlogClient.tsx:378-405 | The result is a permutation of the kept posts. A post is kept iff it matches the query (an empty query matches all) and the category. |
| Blog.DefaultKeepsAll | src/app/blog/BlogClient.tsx:379-388 | With an empty query and "All", every post is kept. |
| Blog.SortOrders | src/app/blog/BlogClient.tsx:391-402 | "newest" and "oldest" order by publication time. "popular" gives non-increasing views. |
| Blog.RegularPostsDropFeatured | src/app/blog/BlogClient.tsx:408 | Without a query or category, the regular list is the filtered list minus featured posts. Otherwise it is the whole filtered list. |
| Blog.FeaturedSection | src/app/blog/BlogClient.tsx:444-458 | The section appears iff there are featured posts and no query or category. It then shows the first one or two featured posts. |
| Blog.TagBadges | src/app/blog/BlogClient.tsx:249-261 | Shows the first min(3, n) tags, and "+(n-3) more" exactly when n > 3. |
| Blog.TagsLoseNothing | src/app/blog/BlogClient.tsx:249-261 | The shown tags followed by the hidden ones are the post's tags. |
| Blog.ResultsLine | src/app/blog/BlogClient.tsx:541 | The line starts with the count in decimal and ends with " found". |
| Blog.ResultsLineWording | src/app/blog/BlogClient.tsx:541 | Reads "1 article found" for one result and "N articles found" otherwise. The number reads back as N. |
| Blog.Stats | src/app/blog/BlogClient.tsx:430-438 | The article count is the number of posts, and views and likes are non-negative. No posts give 0, 0 and 0. One post gives its own views and likes. |
| Blog.StatsAdd | src/app/blog/BlogClient.tsx:434-438 | One post counts once with its own views and likes, and the header figures add up over concatenation. With the empty case this makes the totals the sums of views and likes over the posts. |
| Blog.BlogFilters.constructor | src/app/blog/BlogClient.tsx:372-374 | Starts with an empty query, "All" and newest first. |
| Blog.BlogFilters.ClearFilters | src/app/blog/BlogClient.tsx:562-566 | Resets the query and category and keeps the sort order. |
| Blog.BlogFilters.Regular | src/app/blog/BlogClient.tsx:408 | Without a query or category, the regular posts are the non-featured posts. |
| Blog.RegularAfterClear | src/app/blog/BlogClient.tsx:562-566 | After clearing, the regular list holds exactly the non-featured posts. |
| About.Dedupe | src/app/about/AboutClient.tsx:567 | `Array.from(new Set(...))` has no duplicates and the same members. |
| About.DedupeKeepsFirstAppearanceOrder | src/app/about/AboutClient.tsx:567 | The distinct values appear in the order of their first appearance. |
| About.SkillCategories | src/app/about/AboutClient.tsx:565-568 | Starts with "All", lists each skill category once, and has no duplicates iff no skill's category is "All". |
| About.FilteredSkills | src/app/about/AboutClient.tsx:570-573 | "All" gives every skill. A category gives exactly that category's skills. |
| About.FilteredSkillsKeepOrder | src/app/about/AboutClient.tsx:570-573 | The filter keeps the skills' order. |
| About.CategoriesPartitionSkills | src/app/about/AboutClient.tsx:565-573 | The category views' sizes add up to the number of skills. |
| About.DashSpaces | src/app/about/AboutClient.tsx:336 | `replace(/\s+/g, "-")` leaves no whitespace and never lengthens. It is the identity on text without whitespace. |
| About.DashSpacesIsCollapse | src/app/about/AboutClient.tsx:336 | On every input the result equals a character-by-character reading: a whitespace character becomes '-' unless the previous one was whitespace, when it is dropped; every other character is kept. |
| About.DashSpacesOneDashPerRun | src/app/about/AboutClient.tsx:336 | For a name without '-', the non-dash characters of the result are the non-space characters of the name in order, and the result has exactly one '-' per run of whitespace. |
| About.DashSpacesCollapsesRuns | src/app/about/AboutClient.tsx:336 | For a name without '-', the result never holds two adjacent dashes. |
| About.SkillId | src/app/about/AboutClient.tsx:336 | A skill id is "skill-" followed by the lower-cased name read character by character as in `DashSpacesIsCollapse`. It has no whitespace. |
| About.DetailsId | src/app/about/AboutClient.tsx:337 | The details id is the skill id plus "-details". |
| About.PlainNameId | src/app/about/AboutClient.tsx:336 | A lower-case name without spaces gives "skill-" + name. |
| About.SkillCard.constructor | src/app/about/AboutClient.tsx:335 | A card starts collapsed. |
| About.SkillCard.ControlsId | src/app/about/AboutClient.tsx:355 | `aria-controls` names the details id, which extends and differs from the skill id. |
| About.SkillCard.HandleClick | src/app/about/AboutClient.tsx:350 | A click flips the card. |
| About.SkillCard.HandleKeyDown | src/app/about/AboutClient.tsx:339-344 | Enter or Space flips the card. Every other key leaves it. |
| About.PressTwice | src/app/about/AboutClient.tsx:339-344 | Two presses restore the state. |
| About.TypeLabel | src/app/about/AboutClient.tsx:501-502 | Only the first letter is upper-cased. |
| About.TypeLabels | src/app/about/AboutClient.tsx:501-502 | Gives "Work", "Freelance" and "Internship". |
| Common.DateRange | src/app/about/AboutClient.tsx:494 | Shows "start - end", or "start - Present" without an end date. |
| Experience.Filtered | src/app/experience/ExperienceClient.tsx:286-289 | "all" gives every experience. Another filter gives exactly those of that type. |
| Experience.FilteredKeepsOrder | src/app/experience/ExperienceClient.tsx:286-289 | The filter keeps the order. |
| Experience.TypeButtonsPartition | src/app/experience/ExperienceClient.tsx:585-595 | When every type has a button, the buttons' views add up to every experience. |
| Experience.UnlistedTypeHidden | src/app/experience/ExperienceClient.tsx:585-588 | A part-time or internship entry never shows under a type button. |
| Experience.FilterButtonLabel | src/app/experience/ExperienceClient.tsx:595 | "All Experience" for "all", otherwise the badge text. |
| Common.BadgeText | src/app/experience/ExperienceClient.tsx:379 | `replace('-', ' ').toUpperCase()` keeps the length and leaves no lower-case letter. |
| Common.BadgeTextFirstDash | src/app/experience/ExperienceClient.tsx:379 | Only the first '-' becomes a space. Every other character is upper-cased in place. |
| Experience.IsCurrentJob | src/app/experience/ExperienceClient.tsx:303 | Defined as: a position without an end date. Its partners are `Months`, `TotalMonthsGrowWithNow` and `FinishedJobsIgnoreNow`. |
| Experience.Months | src/app/experience/ExperienceClient.tsx:293-296 | A job counts 12 * (endYear - startYear) + (endMonth - startMonth) months, up to now when it has no end date. |
| Experience.TotalMonths | src/app/experience/ExperienceClient.tsx:292-297 | No positions give 0 months, and one position gives its own months. |
| Experience.TotalMonthsAppend | src/app/experience/ExperienceClient.tsx:292-297 | Total months add up over concatenation. |
| Experience.TotalYears | src/app/experience/ExperienceClient.tsx:298 | Years is floor(total months / 12). |
| Experience.TotalMonthsGrowWithNow | src/app/experience/ExperienceClient.tsx:294 | Later "now"s never lower the total. They raise it when a job is current. |
| Experience.FinishedJobsIgnoreNow | src/app/experience/ExperienceClient.tsx:294 | With no current job, "now" does not matter. |
| Experience.Stats | src/app/experience/ExperienceClient.tsx:557-569 | The stats are the years, the number of positions and a non-negative project count. No positions give 0 projects, and one position gives its own number of projects. |
| Experience.ProjectsAdd | src/app/experience/ExperienceClient.tsx:563-569 | The project figure is the sum over positions: one position counts its own projects, and positions and projects add up over concatenation. |
| Experience.Timeline.constructor | src/app/experience/ExperienceClient.tsx:283-284 | Starts with nothing expanded and filter "all". |
| Experience.Timeline.Toggle | src/app/experience/ExperienceClient.tsx:382 | The clicked card flips and every other card is closed, so at most one is open. |
| Experience.Timeline.SelectFilter | src/app/experience/ExperienceClient.tsx:588 | Sets the filter and keeps the expanded card. |
| Experience.Timeline.Shown | src/app/experience/ExperienceClient.tsx:286-289 | Shows at most every experience, and all of them under "all". |
| Experience.ToggleTwo | src/app/experience/ExperienceClient.tsx:382 | Opening a second card closes the first. |
| Certifications.IsExpired | src/app/certifications/CertificationsClient.tsx:84-88 | Defined as: an expiry date strictly before now; no date is never expired. Its partner is `ExpiryWarningsExclusive`. |
| Certifications.IsExpiringSoon | src/app/certifications/CertificationsClient.tsx:89-95 | Defined as: an expiry date after now and at most three months ahead. Its partner is `ExpiryWarningsExclusive`. |
| Certifications.ExpiryWarningsExclusive | src/app/certifications/CertificationsClient.tsx:84-95 | Expired and expiring-soon never hold together, and neither holds without a date. Expiring soon holds iff now < expiry <= now + 90 days. |
| Certifications.ExpiringSoonExpires | src/app/certifications/CertificationsClient.tsx:84-95 | An expiring-soon certificate is not expired now and is expired after 90 days. |
| Certifications.ExpiryLineOf | src/app/certifications/CertificationsClient.tsx:220-234 | Exactly one expiry line applies. Each line's condition is stated both ways. |
| Certifications.FeaturedOtherPartition | src/app/certifications/CertificationsClient.tsx:98-99 | The featured and other lists split the certifications, with counts and multisets adding up. |
| Certifications.PartitionKeepsOrder | src/app/certifications/CertificationsClient.tsx:98-99 | Both lists keep the order. |
| Certifications.OtherHeading | src/app/certifications/CertificationsClient.tsx:304 | "Additional Certifications" iff there is a featured one. |
| Certifications.VerifiedCount | src/app/certifications/CertificationsClient.tsx:101-102 | The verified count never exceeds the total. |
| Certifications.AllVerifiedIff | src/app/certifications/CertificationsClient.tsx:101-102 | Every certificate is verified iff every one has a credential or view link. |
| Certifications.EmptyStateIffNothing | src/app/certifications/CertificationsClient.tsx:511 | The empty state shows iff the total is zero. |
| Certifications.CategoryColor | src/app/certifications/CertificationsClient.tsx:55-68 | A known category gets its colour. An unknown one falls back to "other". |
| Certifications.CategoryBadge | src/app/certifications/CertificationsClient.tsx:196-197 | The badge uses the category's colour and `BadgeText` of the category: the same length, no lower-case letters. |
| Certifications.SkillBadges | src/app/certifications/CertificationsClient.tsx:246-258 | A featured card lists every skill. An additional card lists the first four and "+(n-4) more" exactly when n > 4 (lines 387-400). |
| Certifications.SkillBadgesLoseNothing | src/app/certifications/CertificationsClient.tsx:387-400 | The shown and hidden counts add up to the skills. |
| Accessibility.JsRem | src/lib/accessibility.ts:115 | NaN for a zero divisor. Otherwise the result differs from the dividend by a multiple of the divisor, is smaller than the divisor in size and has the dividend's sign: the remainder of division truncated toward zero. |
| Accessibility.HandleArrowKeys | src/lib/accessibility.ts:109-125 | NaN exactly for Down/Right on an empty list. Up/Left steps back and wraps from 0 to n - 1. Home gives 0, End n - 1, and any other key keeps the index. |
| Accessibility.ArrowKeysStayInList | src/lib/accessibility.ts:109-134 | For 0 <= i < n the new index is in [0, n). Down/Right wraps to 0 and Up/Left wraps to n - 1. Home gives 0 and End gives n - 1. |
| Accessibility.NextThenPreviousRoundTrip | src/lib/accessibility.ts:113-120 | Down then Up, or Up then Down, returns to i. |
| Accessibility.ArrowKeysOnEmptyList | src/lib/accessibility.ts:113-126 | On an empty list, Down gives NaN, and Up at 0 and End give -1. |
| Accessibility.FocusManager.constructor | src/lib/accessibility.ts:53 | The focus stack starts empty. |
| Accessibility.FocusManager.SaveFocus | src/lib/accessibility.ts:55-60 | Pushes the active element, except for the body or nothing. |
| Accessibility.FocusManager.RestoreFocus | src/lib/accessibility.ts:62-67 | Pops and returns the most recently saved element, or nothing from an empty stack. |
| Accessibility.SaveThenRestore | src/lib/accessibility.ts:53-67 | Save then restore returns the saved element and leaves the stack as it was. |
| Accessibility.RestoreOrder | src/lib/accessibility.ts:53-67 | The stack is last-in first-out. |
| Accessibility.InitialFocus | src/lib/accessibility.ts:95-98 | The trap focuses the first focusable element, if any. |
| Accessibility.TrapTab | src/lib/accessibility.ts:77-91 | A key other than Tab, or an empty container, is let through. Any focus move lands on an element of the container, from one of its elements. |
| Accessibility.TrapWraps | src/lib/accessibility.ts:77-91 | Tab on the last element moves to the first. Shift+Tab on the first moves to the last. Other keys do nothing. A move always lands on an element of the container. |
| Accessibility.AppendReference | src/lib/accessibility.ts:157-172 | An absent or empty reference list becomes the id. Otherwise the id is appended after a space. |
| Accessibility.AppendTwice | src/lib/accessibility.ts:157-172 | Two appends list both ids in order. |
| Accessibility.Element.constructor | src/lib/accessibility.ts:157-172 | An element holds the given attributes. |
| Accessibility.Element.AddReference | src/lib/accessibility.ts:157-172 | Rewrites only the named attribute. |
| Accessibility.Element.CreateDescribedBy | src/lib/accessibility.ts:157-163 | Rewrites `aria-describedby` only. |
| Accessibility.Element.CreateLabelledBy | src/lib/accessibility.ts:166-172 | Rewrites `aria-labelledby` only. |
| Accessibility.HexDigits | src/lib/accessibility.ts:222 | Accepts exactly six hex digits, with an optional leading '#'. |
| Accessibility.HexToRgb | src/lib/accessibility.ts:221-228 | Gives a colour iff the pattern matches, with components in 0..255. |
| Accessibility.ParsePairOf | src/lib/accessibility.ts:224-226 | Two lower-case hex digits read back as their value. |
| Accessibility.HexRoundTrip | src/lib/accessibility.ts:221-228 | Formatting a colour as `#rrggbb` and parsing it gives the colour back. |
| Accessibility.HashIsOptional | src/lib/accessibility.ts:222 | A leading '#' changes nothing. |
| Seo.Override | src/lib/seo.ts:58 | A present key overrides the default, even when undefined. An absent key keeps the default. |
| Seo.Merge | src/lib/seo.ts:58 | Each of the thirteen keys on its own: an unwritten key keeps the default, one written as `undefined` is cleared, and a written value wins. |
| Seo.MergeEmptyIsDefault | src/lib/seo.ts:58 | An empty config gives the defaults. |
| Seo.MergeKeepsGivenKeys | src/lib/seo.ts:58 | Given and undefined keys win over the defaults. Absent ones keep them. |
| Seo.SiteBase | src/lib/seo.ts:59 | The base is `seo.url`, or "https://vaibhavsuman.dev" when empty or absent. |
| Seo.Languages | src/lib/seo.ts:76-83 | Each locale L maps to base + "/" + L, and nothing else is mapped. |
| Seo.OgImages | src/lib/seo.ts:90-100 | One 1200x630 image iff an image is set. |
| Seo.TwitterImages | src/lib/seo.ts:112 | The image list is present iff an image is set. |
| Seo.JoinKeywords | src/lib/seo.ts:64 | Keywords are joined by ", ". |
| Seo.GenerateMetadata | src/lib/seo.ts:57-131 | Covers title and description (also in both cards), the joined keywords, base, canonical, languages only with alternate locales, images iff an image is set, Open Graph type defaulting to "website", and authors iff an author is set. |
| Seo.LanguagesPointUnderBase | src/lib/seo.ts:74-83 | Every alternate link lies under the base url. |
| Seo.DefaultMetadata | src/lib/seo.ts:19-55 | With no configuration the metadata carries the default title, the site url as canonical url, the default author, the default image in both cards, the joined default keywords, the site url as base, and type "website". |
| Seo.BlogPostMetadata | src/lib/seo.ts:258-283 | Title + " \| Vaibhav Suman Blog", canonical base + "/blog/" + slug, type "article". Images iff an image; authors iff an author; the default keywords. |
| Seo.ProjectMetadata | src/lib/seo.ts:285-302 | Title + " \| Vaibhav Suman Projects", canonical base + "/projects/" + slug, type "website". Keywords iff technologies; the default author. |
| Seo.MissingPostFieldsHideDefaults | src/lib/seo.ts:270-281 | A post without an image or author loses the default image and author. The explicit undefined overrides them. |
| Seo.LastSegment | src/lib/seo.ts:234 | `split("/").pop()` is the suffix after the last '/'. |
| Seo.TimeRequired | src/lib/seo.ts:238 | "PT{n}M" exactly for a non-zero reading time. |
| Seo.DateModified | src/lib/seo.ts:218 | The modified time, else the published time. |
| Seo.Crumbs | src/lib/seo.ts:241-251 | Item i has position i + 1 and url base + url, one per input. |
| Seo.GenerateStructuredData | src/lib/seo.ts:160-256 | Known kinds give a value and any other gives null. A person carries each given name, image, job title, company, skills and links, or its `\|\|` default. A website carries its name, description and author or their defaults, and the search target. An article carries all ten fields: headline, description, image, publication date, modified-or-published date, author or default, page id, joined keywords, word count and reading time. A breadcrumb list numbers its items from 1. |
| Seo.ArticlePageIdMatchesPostUrl | src/lib/seo.ts:234 | An article for a blog post url gets that url as its page id. |
| Seo.LastSegmentOfPath | src/lib/seo.ts:234 | The last segment of prefix + "/" + s is s. |
| Seo.SitemapUrls | src/lib/seo.ts:304-339 | Five entries, all under the base url and stamped now. The home page comes first at priority 1. |
| SitemapPage.ProjectEntries | src/app/sitemap.ts:21-26 | One monthly entry at priority 0.8 per project, in the projects' order. |
| SitemapPage.SitemapAsWritten | src/app/sitemap.ts:14-32 | As written: the static entries, then the project entries on "https://johndoe.dev". |
| SitemapPage.AsWrittenLeavesTheSite | src/app/sitemap.ts:15-22 | As written, the five static entries lie on the site and every project entry lies outside it. |
| SitemapPage.Sitemap | src/app/sitemap.ts:18-31 | The static entries followed by one entry per project, so the length is 5 + the number of projects. |
| SitemapPage.SitemapStaysOnSite | src/app/sitemap.ts:15-31 | In the corrected sitemap, every entry lies under the site's domain. |
| SitemapPage.SitemapAppend | src/app/sitemap.ts:21 | Project entries follow the projects' order. |
| SitemapRoute.SiteUrl | src/app/api/sitemap/route.ts:11 | The base is `NEXT_PUBLIC_SITE_URL`, or "https://portfolio.example.com" when it is unset. |
| SitemapRoute.StaticEntry | src/app/api/sitemap/route.ts:36-41 | The home page is daily at 1.0. Every other page is weekly at 0.8. |
| SitemapRoute.StaticEntries | src/app/api/sitemap/route.ts:23-41 | One entry per static page, in order. |
| SitemapRoute.DocumentEntries | src/app/api/sitemap/route.ts:42-59 | One monthly entry per document under its prefix, at the given priority. Nothing if one document cannot be rendered. |
| SitemapRoute.Entries | src/app/api/sitemap/route.ts:34-60 | Static pages, then projects at 0.7, then publications and posts at 0.6. |
| SitemapRoute.Block | src/app/api/sitemap/route.ts:36-59 | A block is the `<url>` elements of its entries, one per entry in order, joined by line breaks. |
| SitemapRoute.Document | src/app/api/sitemap/route.ts:34-60 | The XML starts with the declaration and `<urlset>` and ends with `</urlset>`. With no group empty, what lies between is one `<url>` element per entry, statics, projects, publications and posts in that order, joined by line breaks. |
| SitemapRoute.DocumentListsEveryEntry | src/app/api/sitemap/route.ts:34-68 | With something in each fetched list, the 200 body holds 7 + the number of documents `<url>` elements: the static pages, then projects, publications and posts, in order. |
| SitemapRoute.Get | src/app/api/sitemap/route.ts:13-73 | 200 with `application/xml` iff the fetch succeeds and every document renders. Otherwise 500 "Internal Server Error". |
| SitemapRoute.EntryCount | src/app/api/sitemap/route.ts:23-60 | Seven static entries plus one per fetched document. |
| SitemapRoute.HomeFirst | src/app/api/sitemap/route.ts:24-40 | The first entry is the bare base url, daily at 1.0. |
| SitemapRoute.OneBadDocumentFails | src/app/api/sitemap/route.ts:54-71 | One blog post without a slug or date turns the response into a 500. |
| FeaturedPublications.FormatAuthors | src/components/sections/FeaturedPublications.tsx:127-134 | One span per author, in order. Each has ", " except the last and is highlighted iff it is the site owner. |
| FeaturedPublications.AuthorLineIsJoin | src/components/sections/FeaturedPublications.tsx:127-134 | Read together, the spans are the names joined by ", ". |
| FeaturedPublications.KeywordBadges | src/components/sections/FeaturedPublications.tsx:201-213 | Shows the first min(3, k) keywords, and a hidden count exactly when k > 3. |
| FeaturedPublications.KeywordOverflowLabel | src/components/sections/FeaturedPublications.tsx:207-211 | The overflow badge reads "+(k-3) more". |
| FeaturedPublications.DoiLink | src/components/sections/FeaturedPublications.tsx:269-279 | The link is "https://doi.org/" + doi, present iff a DOI is set. |
| FeaturedPublications.PublicationCard.constructor | src/components/sections/FeaturedPublications.tsx:123 | A card starts collapsed. |
| FeaturedPublications.PublicationCard.ToggleLabel | src/components/sections/FeaturedPublications.tsx:193 | "Show less" when expanded, "Read more" otherwise. |
| FeaturedPublications.PublicationCard.Toggle | src/components/sections/FeaturedPublications.tsx:190 | Flips the card and its label. |
| FeaturedPublications.TotalCitations | src/components/sections/FeaturedPublications.tsx:314 | The sum is non-negative and at least each publication's citations. |
| FeaturedPublications.TotalCitationsIsSum | src/components/sections/FeaturedPublications.tsx:314 | One publication gives its own citations, and totals add over concatenation: the total is the sum over publications. |
| FeaturedPublications.Journals | src/components/sections/FeaturedPublications.tsx:349 | The set holds exactly the journals that appear. |
| FeaturedPublications.VenueCount | src/components/sections/FeaturedPublications.tsx:349 | The venue count is the number of distinct journals among the publications. It never exceeds the publications, and is at least 1 when there are any. |
| FeaturedPublications.OneJournalOneVenue | src/components/sections/FeaturedPublications.tsx:349 | Publications in a single journal give one venue. |
| FeaturedProjects.FilteredProjects | src/components/sections/FeaturedProjects.tsx:268-270 | "All" gives every project. A category gives exactly its projects. |
| FeaturedProjects.FilteredKeepsOrder | src/components/sections/FeaturedProjects.tsx:268-270 | The filter keeps the order. |
| FeaturedProjects.CategoryButtonsPartition | src/components/sections/FeaturedProjects.tsx:95 | When every project is in a named category, the buttons' views add up to every project. |
| FeaturedProjects.TeamLabelPlural | src/components/sections/FeaturedProjects.tsx:213 | "N member" for N <= 1 and "N members" otherwise. The number reads back as N. |
| FeaturedProjects.Highlights | src/components/sections/FeaturedProjects.tsx:221 | At most the first two highlights. |
| FeaturedProjects.TechBadges | src/components/sections/FeaturedProjects.tsx:233-245 | Shows the first min(4, n) technologies, and a hidden count exactly when n > 4. |
| FeaturedProjects.OpenProjectIsPresent | src/components/sections/FeaturedProjects.tsx:209 | A project without an end date reads "start - Present". |
| Common.MoreLabel | src/components/sections/FeaturedProjects.tsx:241-244 | "+n more" is present exactly when items are hidden, with n their number. |
| Common.CapLosesNothing | src/components/sections/FeaturedProjects.tsx:233-245 | The shown items followed by the hidden ones are the whole list. |
| Common.FilterThenSort | src/app/projects/ProjectsClient.tsx:503-531 | Sorting the filtered copy keeps exactly the elements the predicate keeps, as a permutation. |
| Common.GroupSizesPartition | src/app/about/AboutClient.tsx:565-573 | Filtering by each of a list of distinct keys that covers every element counts every element once. |
| Common.TrimEmptyIffAllSpace | src/app/contact/ContactClient.tsx:94 | A field is blank after `trim()` iff it is all whitespace. |
| Common.EmptyQueryMatches | src/app/projects/ProjectsClient.tsx:504 | An empty query matches every text. |
| CheckDeployment.Lookup | scripts/check-deployment.js:34 | Reading `process.env` gives the value iff the variable is set. |
| CheckDeployment.Missing | scripts/check-deployment.js:33-52 | Lists exactly the missing variables, each drawn from the declared list. |
| CheckDeployment.Preview | scripts/check-deployment.js:36 | `substring(0, 10)` is the first min(10, n) characters. |
| CheckDeployment.StatusLine | scripts/check-deployment.js:35-39 | A set variable prints its name and value preview. A missing one prints "NOT SET" after the group's mark. |
| CheckDeployment.CheckGroup | scripts/check-deployment.js:33-52 | The `forEach` loop pushes exactly the missing variables in declaration order, and logs one status line per variable. |
| CheckDeployment.RequiredSummary | scripts/check-deployment.js:55-67 | With nothing missing, prints the all-configured lines. Otherwise prints the count, one bullet per missing variable, and the fix steps. |
| CheckDeployment.OptionalSummary | scripts/check-deployment.js:69-75 | The optional reminder is printed iff an optional variable is missing, with one bullet each. |
| CheckDeployment.Run | scripts/check-deployment.js:10-83 | The whole run: both missing lists, every logged line in order, and the exit code. |
| CheckDeployment.ExitCode | scripts/check-deployment.js:83 | 1 iff some required variable is missing, 0 iff none is. |
| CheckDeployment.Summary | scripts/check-deployment.js:54-81 | The summary heading, then exactly the required-variable lines, then exactly the optional notice, and the help lines last. |
| CheckDeployment.ExitCodeIff | scripts/check-deployment.js:83 | The exit code is 1 iff a required variable is unset or empty, and 0 otherwise. |
| CheckDeployment.OptionalNeverMatters | scripts/check-deployment.js:83 | Environments that agree on the required variables exit alike. |
| CheckDeployment.OptionalVariableIgnored | scripts/check-deployment.js:19-24 | Setting or clearing an optional variable never changes the exit code. |
| CheckDeployment.OnlyTenCharactersShown | scripts/check-deployment.js:36-47 | Values that share their first ten characters print the same line. |
| CheckDeployment.EmptyIsMissing | scripts/check-deployment.js:34-39 | An empty value counts as missing, like an unset one. A non-empty value does not. |
| CheckDeployment.MissingKeepsOrder | scripts/check-deployment.js:33-52 | The missing list keeps the declaration order. |

## Left out

- **Rendering.** Markup, styling, framer-motion animation and DOM event wiring are not modelled. A card's expanded state is modelled, not its drawing.
- **Mail and CMS calls.** Nodemailer transports, the e-mail bodies and the Sanity client are parameters:
  - `ContactRoute.HandleAdmitted` receives whether the e-mail was sent.
  - A store failure does not change the reply, so storing is recorded as attempted.
  - The sitemap fetch is an `Option`.
- **Fetch in the contact form.** The network call in `handleSubmit` is a parameter: the response's ok flag, or none when the call throws.
- **zod's `.email()` check.** It is a predicate parameter of the route.
- **Unicode case mapping.** `toLowerCase`, `toUpperCase` and `\s` are modelled on ASCII only.
- **Locale collation.** `localeCompare` is a lexicographic order on character codes, proved to be a total preorder.
- **Sort algorithm.** `Array.prototype.sort` is modelled as a stable insertion sort on a fresh sequence. `Array.prototype.sort` has been required to be stable since ECMAScript 2019, so ties keep their input order as in the model; the particular algorithm and its comparison count are not modelled.
- **Floating point.** Impact factors are integers in the model. The WCAG luminance and contrast helpers, `toLocaleString` and `toFixed` are not modelled.
- **Dates.** Dates are integer timestamps or `(year, month)` pairs.
  - Date parsing, invalid dates, time zones and locale formatting are not modelled.
  - The sitemap route takes the ISO text of each date, or none when `toISOString` would throw.
- **Timers and randomness.** The live-region announcer's `setTimeout`, `generateId`'s `Math.random` and the motion-preference queries are not modelled.
- **ARIA state setters.** `setExpanded`, `setSelected` and `setPressed` write a fixed attribute and are not modelled.
- **URL validation.** `new URL(baseUrl)` in `generateMetadata` would throw on an invalid base; the model does not capture this.
- **Constant metadata blocks.** The robots, verification and format-detection blocks of the metadata are constants and are not modelled. `generateRobotsTxt` is not modelled.
- GenerateStructuredData: the fixed parts of each JSON-LD object are not fields of the model: `@context`, the `@type` names, the person's empty `alumniOf`, the article's publisher block and author url, and the search action's `query-input`.
- **Colour lookups on inherited keys.** An object lookup that hits an inherited property, such as `categoryColors["toString"]`, is not modelled.
- **External certificate badges.** They upper-case the category without replacing '-' (CertificationsClient.tsx:485). Only their colour uses `CategoryColor`.
- **Deployment console output.** It is returned as the list of logged lines. `process.exit` becomes the returned exit code.
- **End-to-end scripts.** The browser scripts under `testsprite_tests/` are not part of this model.
- **Known behaviours, not findings.** These are modelled as written:
  - An explicitly undefined key in a metadata config hides the default (`Seo.MissingPostFieldsHideDefaults`).
  - Arrow keys on an empty list give NaN or -1 (`Accessibility.ArrowKeysOnEmptyList`).
  - A team of zero reads "0 member".

## Findings

| source | as written | input that shows it | evidently intended | confidence | as-written member | corrected member |
|---|---|---|---|---|---|---|
| src/app/sitemap.ts:15-26 | Project entries are built on the placeholder domain "https://johndoe.dev". The static entries from `generateSitemapUrls` use "https://vaibhavsuman.dev". | Any project, e.g. slug "portfolio-website", gives "https://johndoe.dev/projects/portfolio-website". | Every sitemap entry lies under the site's own domain. | not executed | SitemapPage.SitemapAsWritten, SitemapPage.AsWrittenLeavesTheSite | SitemapPage.Sitemap, SitemapPage.SitemapStaysOnSite |
