# nestjs-middleware in Dafny

This project models a small NestJS backend. The backend relays user registrations and
abandoned-cart events to a Mailchimp audience and keeps a local registry of users. The
model covers five parts of the backend:

- **The user registry** (`Users`, user.service.ts). `UserService` is a class whose `users`
  sequence and `idCounter` change in place. `RegisterUser` appends a user with the next
  id. `UpdateUser` changes the first user with the given email in place, through
  `User.Update`, and then mirrors the change to the platform. A remote failure is
  reported, but the local change is never undone.
- **The intake checks** (`UserRoutes`, `CartRoutes`, `EmailFormat`). Each route handler is a
  function. It returns either the service operation it hands over to, with its arguments,
  or the BadRequest message. The email pattern `^[^\s@]+@[^\s@]+\.[^\s@]+$` is stated
  directly as a regular-expression match (`MatchesEmailRegex`). It is proved equivalent to
  the executable test (`IsValidEmail`).
- **The abandoned-cart event** (`Carts`). This module covers the default tags, the item
  text, the merge-field record, and the order-preserving, duplicate-free tag union
  `[...new Set([...existing, ...tags])]`. It also covers the three remote calls: read the
  tags, update the member, read the tags again.
- **The adapter** (`Mailchimp`). This module covers the configuration check, the
  merge-field provisioning loop and how it classifies errors, the first/last name split,
  the subscriber hash and the 404 normalisation.
- **The platform** (`Remote`). The SDK is seen only through the calls it sends.
  `Remote.Platform` records every call in `log` and answers with an arbitrary function
  `answer` of the calls made before and the current call. Every result about the services
  is therefore stated in terms of the calls sent and the answers received, and it holds
  whatever the platform answers.

Helper modules model the JavaScript the code relies on:
- `Text`: `split`, `join`, `includes`, `toLowerCase`, and the `\s` class.
- `Numbers`: how JavaScript renders a decimal number with `String(x)`.
- `Results`: `Option`, `Result`, and truthiness of optional strings.

Where the code behaves differently from what one might expect, the model follows the code:
- **`GET /users` is routed to the platform's member list.** It does not return the stored
  users (`UserRoutes.ListUsers`). `getAllUsers` exists, but no route calls it. So a
  registration whose remote add failed is not visible through that route.
- **Provisioning can stop early.** An add-field failure with status 400 and title
  "Invalid Resource" but no `detail` makes `error.detail.includes` throw inside the
  handler. That exception reaches the outer handler, so the remaining fields are not
  attempted (`FieldOutcome.Aborted`). Provisioning still never throws.
- **Tag reads can fail on a well-formed call.** A successful tag read whose reply has no
  `tags` array also fails, because mapping over `undefined` throws
  (`Mailchimp.TagNamesOf`).
- **The tag casing differs between the two paths.** A registration is tagged
  "New-customer" and an update "New-Customer". The model keeps both as written.
- **Updates use two addresses.** The remote lookup in an update uses the email from the
  path. A new member is added under the user's current email, which may be the new one
  (`Users.MirrorUpdateAddresses`).

## Model

| member | source | states |
|---|---|---|
| Text.Split | src/services/mailchimp.service.ts:106-107 | `split(' ')` gives at least one piece and no piece contains the separator |
| Text.JoinSplit | src/services/mailchimp.service.ts:106-107 | joining the pieces of a split with the separator gives back the original string |
| Text.Join | src/services/mailchimp.service.ts:107 | defines `join`: the pieces with the separator between consecutive ones, "" for no pieces |
| Text.Contains | src/services/mailchimp.service.ts:71 | defines `includes`: the substring starts at the first position or occurs in the rest |
| Text.ContainsInfix | src/services/mailchimp.service.ts:71 | `includes` finds a substring wherever it occurs |
| Text.ContainsIffOccurs | src/services/mailchimp.service.ts:71 | `includes` holds exactly when the substring occurs at some position |
| Text.IsJsWhitespace | src/modules/user/user.controller.ts:27 | defines the characters of the regex's `\s`: the ECMAScript WhiteSpace and LineTerminator code points |
| Text.LowerChar | src/services/mailchimp.service.ts:220 | defines `toLowerCase` on one character: an ASCII upper-case letter becomes its lower-case letter, anything else stays |
| Text.ToLower | src/services/mailchimp.service.ts:219-221 | lower-casing keeps the length and leaves no ASCII upper-case letter |
| Text.LowerCharIdentifiesCase | src/services/mailchimp.service.ts:220 | two characters lower-case alike exactly when they are equal or the same ASCII letter in the other case |
| Text.ToLowerIdentifiesCase | src/services/mailchimp.service.ts:219-221 | two strings lower-case to the same string exactly when, position by position, they are equal or the same ASCII letter in the other case |
| Text.ToLowerIdempotent | src/services/mailchimp.service.ts:219-221 | lower-casing twice is lower-casing once |
| Numbers.NatToString | src/modules/abandoned-cart/abandoned-cart.service.ts:30 | a whole number renders as digits with no leading zero |
| Numbers.ParseNatToString | src/modules/abandoned-cart/abandoned-cart.service.ts:30 | reading back the rendered digits gives the number |
| Numbers.Normalize | src/modules/abandoned-cart/abandoned-cart.service.ts:38 | no trailing zero is left in the fraction and no digit is added |
| Numbers.NormalizeKeepsValue | src/modules/abandoned-cart/abandoned-cart.service.ts:38 | dropping trailing zeros keeps the value |
| Numbers.NumberToString | src/modules/abandoned-cart/abandoned-cart.service.ts:30 | defines `String(x)` for a decimal: sign, integer digits, and the fraction without trailing zeros after a point when the value is not whole |
| Numbers.NumberToStringWhole | src/modules/abandoned-cart/abandoned-cart.service.ts:38 | a whole number renders with no point, a minus sign exactly when negative, and digits that read back as its magnitude |
| Numbers.NumberToStringScale | src/modules/abandoned-cart/abandoned-cart.service.ts:38 | the rendering depends on the value only, not on how many trailing zeros the payload wrote |
| Numbers.NumberToStringExample | src/modules/abandoned-cart/abandoned-cart.service.ts:30 | 9.5 renders as "9.5" |
| Numbers.NumberToStringTrailingZeros | src/modules/abandoned-cart/abandoned-cart.service.ts:38 | 9.500 renders like 9.5 |
| Numbers.NumberToStringNegativeExample | src/modules/abandoned-cart/abandoned-cart.service.ts:38 | -10.05 renders as "-10.05", keeping the zero inside the fraction |
| EmailFormat.MatchesEmailRegex | src/modules/user/user.controller.ts:27 | transcribes `^[^\s@]+@[^\s@]+\.[^\s@]+$`: an atom, `@`, an atom, `.`, an atom, for some choice of the two separator positions |
| EmailFormat.IsValidEmail | src/modules/user/user.controller.ts:27-28 | defines the test: no whitespace, a non-empty part before the first `@`, no second `@`, and a `.` strictly inside the domain |
| EmailFormat.ValidEmailIffRegex | src/modules/user/user.controller.ts:27-28 | the string test accepts exactly the strings the pattern matches |
| EmailFormat.ValidEmailMatches | src/modules/user/user.controller.ts:27-28 | an accepted string splits into local part, `@`, host, `.`, suffix, each without `@` or whitespace |
| EmailFormat.MatchIsValid | src/modules/user/user.controller.ts:27-28 | any split the pattern allows makes the test accept |
| EmailFormat.AcceptsShortAddress | src/modules/user/user.controller.ts:27-28 | "a@b.c" is accepted |
| EmailFormat.RejectsDomainWithoutDot | src/modules/user/user.controller.ts:27-28 | a domain without a dot is rejected |
| EmailFormat.RejectsTrailingDot | src/modules/user/user.controller.ts:27-28 | a dot ending the domain is rejected |
| EmailFormat.RejectsEmptyLocalPart | src/modules/user/user.controller.ts:27-28 | an empty local part is rejected |
| EmailFormat.RejectsSecondAt | src/modules/user/user.controller.ts:27-28 | a second `@` is rejected |
| EmailFormat.RejectsSpace | src/modules/user/user.controller.ts:27-28 | whitespace is rejected |
| Mailchimp.LoadConfig | src/services/mailchimp.service.ts:11-19 | the configuration loads exactly when API key, server prefix and audience id are all non-empty; otherwise "Mailchimp configuration is missing" |
| Mailchimp.MailchimpService.Create | src/services/mailchimp.service.ts:11-25 | construction succeeds exactly when the three settings are present, with those settings |
| Mailchimp.NameSplit | src/services/mailchimp.service.ts:106-107 | FNAME is the text before the first space, LNAME the text after it ("" without a space), and FNAME + " " + LNAME is the name when it has a space |
| Mailchimp.FirstName | src/services/mailchimp.service.ts:106 | defines FNAME as the first piece of the name split at spaces |
| Mailchimp.LastName | src/services/mailchimp.service.ts:107 | defines LNAME as the remaining pieces joined back with single spaces |
| Mailchimp.SubscriberHash | src/services/mailchimp.service.ts:219-221 | defines the member id as the digest of the lower-cased email |
| Mailchimp.HashIgnoresCase | src/services/mailchimp.service.ts:219-221 | emails equal up to case get the same subscriber hash |
| Mailchimp.HashSeparatesOtherEmails | src/services/mailchimp.service.ts:219-221 | with a collision-free digest, emails that differ other than in ASCII case get different hashes (in the model; see `Text.ToLower` under Left out for non-ASCII letters) |
| Mailchimp.HashExample | src/services/mailchimp.service.ts:219-221 | "Foo@Bar.com" and "foo@bar.com" address the same member |
| Mailchimp.MissingFields | src/services/mailchimp.service.ts:58-63 | a required field is to be added exactly when its tag is not among the list's tags |
| Mailchimp.MissingFieldsAppend | src/services/mailchimp.service.ts:62-63 | the missing fields of a concatenation are the concatenation of the missing fields, so their order is the listed order |
| Mailchimp.RequiredFields | src/services/mailchimp.service.ts:46-52 | the five fields CARTID, CARTITEMS, TOTALPRICE, ABNDNTIME, RETURNURL with their names and types, in that order |
| Mailchimp.RequiredFieldsSchema | src/services/mailchimp.service.ts:46-52 | the required fields are five, with pairwise different tags, and TOTALPRICE is the only numeric one |
| Mailchimp.AbortsProvisioning | src/services/mailchimp.service.ts:68-71 | defines the reply whose handling throws inside the handler: a 400 "Invalid Resource" failure without `detail` |
| Mailchimp.AddFieldOutcome | src/services/mailchimp.service.ts:64-85 | defines how one add attempt ends: added, already there, logged failure, or a throw from the handler |
| Mailchimp.AlreadyExistsIsSwallowed | src/services/mailchimp.service.ts:68-73 | a 400 "Invalid Resource" whose detail contains "already exists" counts as the field being there |
| Mailchimp.OtherFailuresAreNotSwallowed | src/services/mailchimp.service.ts:68-84 | any other failure with a detail, or without status 400 and that title, is only logged |
| Mailchimp.AbortsProvisioningIsAborted | src/services/mailchimp.service.ts:68-71 | the failures that stop provisioning are exactly the 400 "Invalid Resource" ones without detail |
| Mailchimp.AddFieldCalls | src/services/mailchimp.service.ts:65 | the reference list: one add call per field, the i-th for the i-th field |
| Mailchimp.AddAttempts | src/services/mailchimp.service.ts:62-89 | defines the add calls the loop sends: skip present fields, attempt missing ones, stop after an attempt whose failure handler throws |
| Mailchimp.ProvisioningCalls | src/services/mailchimp.service.ts:54-95 | defines all calls of provisioning: the schema read, then the attempts only when it returned a field list |
| Mailchimp.AddAttemptsFollowMissing | src/services/mailchimp.service.ts:62-89 | the attempts are a prefix of the add calls for the missing fields, in order; no attempt but the last got an aborting reply, and the run stops early only right after one |
| Mailchimp.FollowsMissingCons | src/services/mailchimp.service.ts:62-89 | an attempt whose reply does not abort extends a run that follows the missing fields |
| Mailchimp.AddAttemptsComplete | src/services/mailchimp.service.ts:62-89 | when no add-field reply aborts, exactly the missing fields are attempted, in order |
| Mailchimp.SubscriberLookup | src/services/mailchimp.service.ts:171-183 | defines what `getSubscriber` returns for a reply |
| Mailchimp.TagNamesOf | src/services/mailchimp.service.ts:207-215 | defines what `getMemberTags` returns for a reply: the tag names, or a throw when there is no tag list |
| Mailchimp.MembersOf | src/services/mailchimp.service.ts:189-200 | defines what `getListMembers` returns for a reply: its `members`, possibly absent |
| Mailchimp.SubscriberLookupNormalizes404 | src/services/mailchimp.service.ts:171-183 | a 404 becomes "no subscriber", every other failure is rethrown unchanged, a member is returned as received |
| Mailchimp.MailchimpService.VerifyConnection | src/services/mailchimp.service.ts:32-43 | one ping is sent and its failure is rethrown |
| Mailchimp.MailchimpService.EnsureMergeFieldsExist | src/services/mailchimp.service.ts:45-96 | the schema read, then the add attempts for the missing fields, never failing; nothing more when the read fails |
| Mailchimp.MailchimpService.AddMissingFields | src/services/mailchimp.service.ts:62-89 | the loop sends exactly the attempts `AddAttempts` describes |
| Mailchimp.MailchimpService.OnModuleInit | src/services/mailchimp.service.ts:27-30 | start-up pings, and provisions only when the ping succeeded |
| Mailchimp.MailchimpService.AddMemberCall | src/services/mailchimp.service.ts:102-109 | defines the add-member request: the list id, the email, status "subscribed", FNAME/LNAME from the name, and the tags |
| Mailchimp.MailchimpService.UpdateMemberCall | src/services/mailchimp.service.ts:133-142 | defines the update request: the list id, the email's subscriber hash, the merge fields and the tags |
| Mailchimp.MailchimpService.GetMemberCall | src/services/mailchimp.service.ts:162-167 | defines the member read: the list id and the email's subscriber hash |
| Mailchimp.MailchimpService.GetTagsCall | src/services/mailchimp.service.ts:206-210 | defines the tags read: the list id and the email's subscriber hash |
| Mailchimp.MailchimpService.AddToList | src/services/mailchimp.service.ts:98-123 | one subscribe call with FNAME/LNAME split from the name and the given tags; failures rethrown |
| Mailchimp.MailchimpService.UpdateSubscriber | src/services/mailchimp.service.ts:125-156 | one update addressed by the hash of the email, with the given fields and tags; failures rethrown |
| Mailchimp.MailchimpService.GetSubscriber | src/services/mailchimp.service.ts:158-184 | one lookup by hash, with the 404 normalisation |
| Mailchimp.MailchimpService.GetListMembers | src/services/mailchimp.service.ts:185-202 | one list read returning its `members` |
| Mailchimp.MailchimpService.GetMemberTags | src/services/mailchimp.service.ts:204-217 | one tag read by hash returning the tag names; a reply without tags throws |
| Users.User.Update | src/modules/user/user.service.ts:42-47 | a given non-empty name or email replaces the old one; nothing else changes |
| Remote.Platform.Send | src/services/mailchimp.service.ts:65 | each SDK call is appended to the log and answered from the calls made before it |
| Users.FindByEmail | src/modules/user/user.service.ts:37 | the position of the first user whose email is exactly the given one, none when no user has it |
| Users.ApplyPatch | src/modules/user/user.service.ts:42-47 | defines a user after an update: a non-empty given name or email replaces the old one |
| Users.PatchChangesOnlyGivenFields | src/modules/user/user.service.ts:42-47 | id and sign-up date never change; a field changes exactly when a different non-empty value is given |
| Users.RegisterKeepsIdsAscending | src/modules/user/user.service.ts:13-19 | appending with the counter keeps ids positive, below the counter and strictly increasing |
| Users.UpdateKeepsIdsAscending | src/modules/user/user.service.ts:42-47 | an in-place update keeps that invariant |
| Users.IdsUnique | src/modules/user/user.service.ts:13-14 | no two stored users share an id |
| Users.DuplicateEmailsAllowed | src/modules/user/user.service.ts:13-19 | registering an email twice stores two users, and lookups find the first |
| Users.FindAfterPrefix | src/modules/user/user.service.ts:37 | users after a prefix without a match are found at their position |
| Users.RemoteFailure | src/modules/user/user.service.ts:66-70 | defines the rethrown message: "Mailchimp API error: " and the response text when the error carries a response, otherwise the caller's prefix and the error message |
| Users.UserMergeFields | src/modules/user/user.service.ts:54-58 | defines the fields sent for an existing member: FNAME and LNAME from the user's name, EMAIL the user's email |
| Users.MirrorUpdate | src/modules/user/user.service.ts:49-71 | defines the calls and the error of mirroring an update |
| Users.MirrorUpdateAddresses | src/modules/user/user.service.ts:49-71 | the lookup uses the path email; a found member gets exactly the update with FNAME/LNAME/EMAIL of the changed user at that address; a 404 gives exactly the add of the user under their current email; both with tag "New-Customer"; any other lookup failure stops with its wrapped error; the result is an error exactly when the write failed |
| Users.UserService.constructor | src/modules/user/user.service.ts:7-10 | no users and the counter at 1 |
| Users.UserService.RegisterUser | src/modules/user/user.service.ts:12-31 | the user is appended with id = old counter, the counter grows by one, earlier users are untouched, one add with tag "New-customer" is sent, and a remote failure is reported with the user kept |
| Users.UserService.UpdateUser | src/modules/user/user.service.ts:33-74 | "User not found" with nothing changed when no email matches; otherwise exactly the first match is patched, the remote mirroring follows, and its failure leaves the patch in place |
| Users.UserService.MirrorToPlatform | src/modules/user/user.service.ts:49-71 | the calls and the error message of the mirroring, as `MirrorUpdate` describes them |
| Users.UserService.GetAllUsers | src/modules/user/user.service.ts:76-78 | the stored users themselves, in registration (ascending id) order |
| Users.UserService.GetUsersFromMailchimp | src/modules/user/user.service.ts:80-89 | one list read; its failure is reported with the platform's text or "Failed to get users from Mailchimp: " |
| Carts.EventTags | src/modules/abandoned-cart/abandoned-cart.service.ts:23 | defines the event tags: the given ones, or ["Abandoned Cart"] when none are given |
| Carts.FormatItem | src/modules/abandoned-cart/abandoned-cart.service.ts:30 | defines one item line: name, quantity in parentheses, " - $" and the price |
| Carts.ItemTexts | src/modules/abandoned-cart/abandoned-cart.service.ts:29-30 | one rendered line per cart item, in order |
| Carts.FormatCartItems | src/modules/abandoned-cart/abandoned-cart.service.ts:29-31 | an empty cart gives "", one item gives its line alone |
| Carts.FormatCartItemsSnoc | src/modules/abandoned-cart/abandoned-cart.service.ts:29-31 | one more item appends ", " and its line |
| Carts.FormatCartItemsExample | src/modules/abandoned-cart/abandoned-cart.service.ts:29-31 | two shoes at 9.5 render as "Shoe (2) - $9.5" |
| Carts.CartMergeFields | src/modules/abandoned-cart/abandoned-cart.service.ts:33-41 | defines the merge-field record of an event |
| Carts.CartMergeFieldsMatchSchema | src/modules/abandoned-cart/abandoned-cart.service.ts:33-41 | the record has FNAME, LNAME and exactly the provisioned tags as keys; CARTID, ABNDNTIME and RETURNURL are copied unchanged |
| Carts.CartNameFields | src/modules/abandoned-cart/abandoned-cart.service.ts:34-35 | FNAME and LNAME give back the customer's name |
| Carts.MergeTags | src/modules/abandoned-cart/abandoned-cart.service.ts:43 | defines the tag union as the deduplication of the existing tags followed by the event tags |
| Carts.Dedup | src/modules/abandoned-cart/abandoned-cart.service.ts:43 | the same values as the input, each exactly once |
| Carts.DedupPrefix | src/modules/abandoned-cart/abandoned-cart.service.ts:43 | later values never move the ones already placed |
| Carts.DedupOfDistinct | src/modules/abandoned-cart/abandoned-cart.service.ts:43 | a duplicate-free sequence is unchanged |
| Carts.DedupAbsorbs | src/modules/abandoned-cart/abandoned-cart.service.ts:43 | appending values already present changes nothing |
| Carts.MergeTagsSpec | src/modules/abandoned-cart/abandoned-cart.service.ts:43 | the union holds every existing and every event tag once, with duplicate-free existing tags first and in order |
| Carts.MergeTagsIdempotent | src/modules/abandoned-cart/abandoned-cart.service.ts:43 | merging the same event tags again changes nothing |
| Carts.MergeTagsExample | src/modules/abandoned-cart/abandoned-cart.service.ts:43 | ["A","B"] with ["B","C"] gives ["A","B","C"] |
| Carts.CartEvent | src/modules/abandoned-cart/abandoned-cart.service.ts:11-70 | defines the calls and the result of an event |
| Carts.CartEventCalls | src/modules/abandoned-cart/abandoned-cart.service.ts:26-60 | tags read, update, tags read, all for the event's member; the update is sent exactly when the first read succeeded, the second read exactly when the update succeeded |
| Carts.CartEventResult | src/modules/abandoned-cart/abandoned-cart.service.ts:45-69 | a failed first read ends the event with its error, a failed update with the update's reply, a failed final read with its error; otherwise the result is the update's reply |
| Carts.CartEventTags | src/modules/abandoned-cart/abandoned-cart.service.ts:23-49 | the update carries the union of the existing and event tags, "Abandoned Cart" when the event names none |
| Carts.AbandonedCartService.CreateAbandonedCart | src/modules/abandoned-cart/abandoned-cart.service.ts:11-70 | sends exactly the calls of `CartEvent` and returns its result |
| UserRoutes.RegisterUser | src/modules/user/user.controller.ts:20-33 | accepted exactly when name and email are non-empty and the email matches the pattern, handing over the same name and email; otherwise the right BadRequest message |
| UserRoutes.UpdateUser | src/modules/user/user.controller.ts:35-52 | accepted exactly when the path email is non-empty and a non-empty body email matches the pattern, handing over both unchanged |
| UserRoutes.VerifyConnection | src/modules/user/user.controller.ts:59-63 | "Mailchimp connection verified" exactly when the ping succeeded, its error otherwise |
| UserRoutes.PathEmailNotChecked | src/modules/user/user.controller.ts:40-51 | for every non-empty path email and any name, an update without a new email or with an empty one is handed over unchanged, so the path email is never format-checked |
| UserRoutes.MalformedEmailRejected | src/modules/user/user.controller.ts:22-48 | an address the pattern rejects never reaches the service from either route |
| UserRoutes.UpdateRejectsSpace | src/modules/user/user.controller.ts:44-48 | a body email with a space is rejected |
| CartRoutes.CreateAbandonedCart | src/modules/abandoned-cart/abandoned-cart.controller.ts:15-32 | accepted exactly when the email is non-empty and matches the pattern, handing the event over unchanged; otherwise "Email is required" or "Invalid email format" |
| CartRoutes.SameEmailRuleAsUsers | src/modules/abandoned-cart/abandoned-cart.controller.ts:24-27 | an event email is accepted exactly when user registration accepts it |

`UserRoutes.ListUsers` (user.controller.ts:54-57) and `CartRoutes.TestRoute`
(abandoned-cart.controller.ts:34-37) are constant functions: the first names the
platform-list operation and the second returns "Abandoned cart route is working".

## Left out

- The SDK calls, HTTP, and the platform's behaviour: the platform is an arbitrary answer function, and proofs hold for every answer.
- Logging everywhere: it has no effect on results.
- NestJS modules, dependency injection, and configuration loading from the environment: the three settings are parameters of `Create`.
- MD5 and hex encoding: `md5Hex` is a parameter. Only the lower-casing in front of it is modelled, and injectivity is an explicit assumption of `HashSeparatesOtherEmails`.
- `Text.ToLower`: maps ASCII letters only, not the full Unicode case mapping of `toLowerCase`. So `Mailchimp.HashSeparatesOtherEmails` holds of the model but not of the service: there, "\u212A" (KELVIN SIGN) and "k" lower-case to the same string and hash the same.
- `Numbers.NumberToString`: renders exact decimals. Binary floating-point rounding, exponent notation, `NaN` and `Infinity` are not modelled.
- `new Date()`: the sign-up time is the parameter `now` of `RegisterUser`.
- Concurrency and interleaving of asynchronous requests: the model is sequential.
- Runtime type errors from malformed bodies (a non-string name, a missing `cartItems` or `customerName`): fields have their declared types. A missing string field is the empty string, which JavaScript treats as falsy in the same way.
- Users.RemoteFailure: when the error has a response whose `text` is undefined, JavaScript builds "Mailchimp API error: undefined". The model has either a response text or no response.
- Mailchimp.MailchimpService.EnsureMergeFieldsExist: the merge-field read is taken as one reply. The SDK's paging of merge fields is not modelled.
- The DTO file has no behaviour: its shapes are `Carts.CartItem` and `Carts.CartDto`.
