# Interest-form intake: a Dafny model

This project models the submission pipeline of the Study Abroad Scholarships interest-form back end. The pipeline consists of two Azure Functions and the classes they use:

- **CreateInterestFormEntry** takes one submission.
- **CreateInterestFormEntries** takes a JSON array of submissions.

Both functions do the same work in the same order:

1. Write an audit copy of the raw request body (a `RequestBodyLog`) to the Cosmos container.
2. Deserialise the body.
3. Store each submission.
4. Route the submission:
   - A US or Canadian resident goes to the representatives of every Rotary district whose record lists the zip code.
   - Anyone else goes to the representatives of the country of residence.
5. Send the student a reply.
6. Record every failure in the submission's error list.
7. Answer with an HTTP result. The single function returns `200` with the submission, or `BadRequest`. The batch function returns counts and the list of failed submissions.

The model is organised by the program's own structure:

| module | file | models |
|---|---|---|
| `Runtime` | runtime.dfy | exceptions with their chain of inner exceptions, and `LoggingService.LogException` |
| `Strings` | strings.dfy | `String.Trim`, `ToLower`, `Replace(x, "")`, `string.Join`, and facts about substrings |
| `Submissions` | submission.dfy | `InterestFormSubmission`: its constructor's trimming and country canonicalisation, and `AddId`/`AddError`/`AddErrors` on its error list |
| `Store` | store.dfy | the container and the SMTP relay as one `Cloud` object: stored documents with `_ts`, the three queries, create and upsert, and a script of faults |
| `ZipCodes` | zipcodes.dfy | `ZipCodeService.GetDistrictsByZipCode` with its paging loop |
| `Mail` | mail.dfy | `EmailSender`: the four body generators, `SendEmailAsync`, and the district and country pairs of mails |
| `Intake` | intake.dfy | the audit write, the parse, and their failure handlers |
| `Routing` | routing.dfy | the routing inside the `try` block of each function |
| `SingleEntry` | single_entry.dfy | CreateInterestFormEntry as a whole |
| `Responses` | responses.dfy | `InterestFormsResponse` and `ErrorSubmission` |
| `BatchEntries` | batch_entries.dfy | CreateInterestFormEntries as a whole |

## How the model is built

**The outside world is data.** Everything outside the functions is a value `World`: the documents, the clock that stamps `_ts`, the page size of a query, and a *fault script*. Every awaited call to the container, the relay or the notice senders consumes one script entry:

- `None` means the call succeeds.
- `Some(e)` means it throws `e`.

Every call is appended to an event trace. As a result, a property can say which calls happen, in which order, and what each one carries.

**Pure functions specify, classes match them.** Each step of the source has a pure function on `World` (`CreateStep`, `SendEmailStep`, `DistrictRoute`, `SingleRun`, `BatchRun`, …). The imperative side has the source's own classes, with their methods and loops:

- `Cloud`
- `ZipCodeService`
- `EmailSender`
- `InterestFormSubmission` with its mutable error list
- `InterestFormsResponse` with its list of `ErrorSubmission`s

Each method is proved to leave exactly the state, and return exactly the result, of its pure counterpart. The properties are then lemmas and `ensures` clauses on the pure functions.

**Effects of the code that the model captures:**

- `LoggingService.LogException` reads five levels of `InnerException` without a null check. It therefore throws a `NullReferenceException` unless the exception has at least five nested inner exceptions (`Runtime.LogException`). Every catch block calls it first. So a shallow exception turns each "log and answer 500" or "log and answer BadRequest" handler into an exception that escapes the function (`HttpResult.Unhandled`). That exception also escapes `SendEmailAsync`'s own catch.
- In the batch function, the JSON array is deserialised straight into `InterestFormSubmission` objects, without the sixteen-argument constructor:
  - ids, fields and errors come from the JSON unchanged;
  - a submission that arrives with errors counts as failed;
  - a JSON `null` array escapes as a `NullReferenceException`.
- `ErrorSubmission` keeps a reference to the submission's own error list. Errors added after the listing show in the response.
- In the batch function, a failed upsert is caught by the same item's catch block. That submission is then counted twice in `CountError` and listed twice.
- In the single function, the message of the `BadRequest` result interpolates the error list. What it shows is the list's type name, not the messages.
- `SendDistrictEmailAsync` calls the reply generator with `isDistrict = false`, and `SendCountryEmailAsync` calls it with `isDistrict = true` and no districts. As a result:
  - the district reply names the title-cased country (`Mail.DistrictReplyNamesCountry`);
  - the country reply reads "Rotary Districts " with nothing after it (`Mail.CountryReplyNamesNoCountry`).

### Where the code and its documentation differ

The model follows the code in each of these cases:

- **Zip codes.** The constructor only trims them (`InterestFormSubmission.cs:52`). It neither truncates nor upper-cases them (`Submissions.ZipcodeOnlyTrimmed`).
- **Order of country canonicalisation.** The chain trims first, then lower-cases, then removes `"the "`, `"."` and `" "` (`InterestFormSubmission.cs:61`).
- **Country aliases.** The alias table is hard-coded in the constructor (`InterestFormSubmission.cs:62-69`); it is not data.
- **Idempotence of canonicalisation.** It holds exactly when the result has no white space at its ends (`Submissions.CanonicalIdempotentIff`). It fails for `"a\t."`, which becomes `"a\t"` and then `"a"` (`Submissions.CanonicalNotIdempotent`).
- **"Always BadRequest" / "never raises".** The single function's catch block ends in an escaping exception whenever either exception is shallower than five levels. `SendEmailAsync` can raise the same way.
- **"Both mails are always attempted".** In `SendDistrictEmailAsync` and `SendCountryEmailAsync`, the reply is skipped when the first send raises (`Mail.SendPairMergesErrors`).
- **The batch function.** It is not guaranteed to answer with counts: a shallow exception in a catch block escapes.
- **Rejection notices.** In the batch function, a district or country that is not found sends no notice, and the country path does not look at certification (`Routing.BatchMailsAnyCountry`).

## Model

| member | source | states |
|---|---|---|
| `Runtime.LogException` | api/Shared/Services/LoggingService.cs:14-28 | logging succeeds exactly when the exception has at least five nested inner exceptions; otherwise it raises a NullReferenceException |
| `Runtime.NestedIffDeep` | api/Shared/Services/LoggingService.cs:18-27 | the k-th nested InnerException exists exactly when k is at most the depth of the chain |
| `Runtime.LoggingNullReferenceThrows` | api/Shared/Services/LoggingService.cs:18 | the NullReferenceException the logger raises cannot itself be logged |
| `Strings.Trim` | api/Shared/Models/InterestFormSubmission.cs:44-56 | the result starts and ends with no white space, is a slice of the input with only white space on either side, and is the input itself when the input has no edge white space |
| `Strings.TrimmedFromIsTrim` | api/Shared/Models/InterestFormSubmission.cs:44-56 | a string is a trimming of the input (an inner slice with only white space around it and none at its ends) exactly when it is Trim of the input |
| `Strings.ToLower` | api/Shared/Models/InterestFormSubmission.cs:61 | same length; each ASCII capital becomes the letter 32 code points later (its lower-case form) and every other character stays as it is, so no upper-case letter is left and white space keeps its positions |
| `Strings.RemoveAll` | api/Shared/Models/InterestFormSubmission.cs:61 | the result is no longer than the input and holds each character at most as often as the input does; a one-character pattern no longer occurs in it |
| `Strings.RemoveCharIsWithout` | api/Shared/Models/InterestFormSubmission.cs:61 | removing a one-character pattern is dropping every occurrence of that character and keeping the others in order |
| `Strings.WithoutCounts` | api/Shared/Models/InterestFormSubmission.cs:61 | after dropping a character, every other character occurs exactly as often as in the input, and the dropped one not at all |
| `Strings.RemoveAllUnfound` | api/Shared/Models/InterestFormSubmission.cs:61 | a string in which the pattern occurs nowhere is left unchanged |
| `Submissions.Alias` | api/Shared/Models/InterestFormSubmission.cs:62-69 | the four US spellings become "usa" and the three UK spellings "uk"; any other token is kept, and no alias survives |
| `Submissions.CanonicalCountry` | api/Shared/Models/InterestFormSubmission.cs:61-70 | the canonical country contains no space, no dot and no upper-case letter |
| `Submissions.CanonicalUs` | api/Shared/Models/InterestFormSubmission.cs:61-70 | "US" is stored as "usa" |
| `Submissions.CanonicalTheUnitedStates` | api/Shared/Models/InterestFormSubmission.cs:61-70 | "The United States." is lower-cased, loses "the ", the dot and the space, and is stored as "usa" |
| `Submissions.CanonicalIdempotentIff` | api/Shared/Models/InterestFormSubmission.cs:61-70 | canonicalising twice gives the same as once exactly when the canonical form has no white space at its ends |
| `Submissions.CanonicalIdempotent` | api/Shared/Models/InterestFormSubmission.cs:61-70 | canonicalisation is idempotent on every input whose only white space is the ordinary space |
| `Submissions.CanonicalNotIdempotent` | api/Shared/Models/InterestFormSubmission.cs:61-70 | "a\t." canonicalises to "a\t", which is not its own canonical form |
| `Submissions.Normalize` | api/Shared/Models/InterestFormSubmission.cs:42-70 | every free-text field except the country is the trimmed input, both flags are copied, and the country is the canonical country |
| `Submissions.ZipcodeOnlyTrimmed` | api/Shared/Models/InterestFormSubmission.cs:52 | a zip code without edge white space is stored exactly as given |
| `Submissions.NormalizeIdempotent` | api/Shared/Models/InterestFormSubmission.cs:40-71 | normalising a normalised form changes nothing when its country has no edge white space |
| `Submissions.StringList.Add` | api/Shared/Models/InterestFormSubmission.cs:32-35 | the list gains the message at its end and nothing else changes |
| `Submissions.StringList.AddRange` | api/Shared/Models/InterestFormSubmission.cs:36-39 | the list gains the messages at its end, in order |
| `Submissions.InterestFormSubmission.constructor` | api/Shared/Models/InterestFormSubmission.cs:40-71 | the fields are the normalised input, the error list is new and empty, and the id is the new Guid |
| `Submissions.InterestFormSubmission.Deserialized` | api/CreateInterestFormEntries.cs:56 | a deserialised item holds the JSON's id, fields and errors exactly, with no trimming or canonicalisation |
| `Submissions.InterestFormSubmission.AddId` | api/Shared/Models/InterestFormSubmission.cs:28-31 | the id becomes the given Guid |
| `Submissions.InterestFormSubmission.AddError` | api/Shared/Models/InterestFormSubmission.cs:32-35 | the error list gains the message at its end |
| `Submissions.InterestFormSubmission.AddErrors` | api/Shared/Models/InterestFormSubmission.cs:36-39 | the error list gains the messages at its end, in order |
| `Store.CreateStep` | api/CreateInterestFormEntry.cs:44 | the call is recorded; when the call succeeds, the document is stored with the current _ts; when it fails, nothing is stored and the fault is returned |
| `Store.Upserted` | api/CreateInterestFormEntry.cs:149 | the new document is present, every document with another id is kept, and nothing else is added; the count stays the same exactly when a document with that id was stored (it is replaced) and grows by one otherwise; when ids were unique, they stay unique and the new document is the only one with its id |
| `Store.UpsertStep` | api/CreateInterestFormEntry.cs:149 | the call is recorded; success replaces the document with the same id, or adds it, as `Store.Upserted` states; failure leaves the documents unchanged |
| `Store.DistrictsWithZip` | api/Shared/Services/ZipCodeService.cs:19 | the grouped rows have no duplicates, and a district is among them exactly when one of its records lists the zip code |
| `Store.Newest` | api/CreateInterestFormEntry.cs:84 | TOP 1 ORDER BY _ts desc gives a matching document with no newer match, and nothing exactly when no document matches |
| `Store.TopDistrictIsNewest` | api/CreateInterestFormEntry.cs:84-85 | the record found for a district is one of its stored records and none of its records is newer; none is found exactly when it has no record |
| `Store.ZipPageStep` | api/Shared/Services/ZipCodeService.cs:25 | a page is the next consecutive slice of the grouped rows, and is non-empty while rows remain; the read throws exactly when the script faults |
| `Store.TopDistrictStep` | api/CreateInterestFormEntry.cs:85 | a successful read returns the newest record of the district; it throws exactly when the script faults |
| `Store.TopCountryStep` | api/CreateInterestFormEntry.cs:113 | a successful read returns the newest record of the country; it throws exactly when the script faults |
| `Store.Cloud.CreateItemAsync` | api/CreateInterestFormEntry.cs:44 | the container's new state and the fault are those of the create step |
| `Store.Cloud.UpsertItemAsync` | api/CreateInterestFormEntry.cs:149 | the container's new state and the fault are those of the upsert step |
| `Store.Cloud.ReadZipPage` | api/Shared/Services/ZipCodeService.cs:25 | the container's new state and the page are those of the page read |
| `Store.Cloud.ReadTopDistrict` | api/CreateInterestFormEntry.cs:85 | the container's new state and the record are those of the district read |
| `Store.Cloud.ReadTopCountry` | api/CreateInterestFormEntry.cs:113 | the container's new state and the record are those of the country read |
| `ZipCodes.ZipLoop` | api/Shared/Services/ZipCodeService.cs:23-30 | the paging loop returns the accumulated districts followed by all remaining grouped rows, and leaves the documents unchanged |
| `ZipCodes.ZipLoopOutcome` | api/Shared/Services/ZipCodeService.cs:23-30 | the loop's first call is the page read at its offset; it returns when nothing faults, and an exception it ends with is a scripted fault |
| `ZipCodes.ZipLoopThrows` | api/Shared/Services/ZipCodeService.cs:23-25 | a page read that throws ends the loop with that exception |
| `ZipCodes.ZipLoopAdvances` | api/Shared/Services/ZipCodeService.cs:23-30 | after a page read that returns, the gathered districts are the rows read so far, and the loop either goes on from the next offset, having read at least one row, or, after the last row, returns them |
| `ZipCodes.ZipLoopAdvancesOn` | api/Shared/Services/ZipCodeService.cs:23-29 | a page short of the last row extends the gathered prefix and the rest of the lookup is the loop from the next offset |
| `ZipCodes.ZipLoopAdvancesLast` | api/Shared/Services/ZipCodeService.cs:23-30 | a page reaching the last row completes the gathered districts, and the lookup returns them |
| `ZipCodes.ZipPageFacts` | api/Shared/Services/ZipCodeService.cs:25 | a page read that returns leaves the documents alone and returns the next rows, at least one while rows remain |
| `ZipCodes.ZipLoopGoesOn` | api/Shared/Services/ZipCodeService.cs:23-29 | a turn whose page stops short of the last row continues as the loop from the next offset with the page gathered |
| `ZipCodes.ZipLoopEnds` | api/Shared/Services/ZipCodeService.cs:23-30 | a turn whose page reaches the last row ends the loop, returning what was gathered with that page |
| `ZipCodes.DistrictLookup` | api/Shared/Services/ZipCodeService.cs:17-32 | the first call the lookup makes is the read of the first page for that zip code |
| `ZipCodes.DistrictLookupCorrect` | api/Shared/Services/ZipCodeService.cs:17-32 | the lookup only reads, returns exactly the districts whose records list the zip code (each once), succeeds when nothing faults, and throws only a scripted fault |
| `ZipCodes.DistrictLookupEmpty` | api/Shared/Services/ZipCodeService.cs:16-32 | with no district record listing the zip code, the lookup returns the empty list |
| `ZipCodes.DistrictFeed.constructor` | api/Shared/Services/ZipCodeService.cs:22 | a new iterator stands at the first row and has more results |
| `ZipCodes.DistrictFeed.ReadNextAsync` | api/Shared/Services/ZipCodeService.cs:25 | the read is the page step at the current offset; the offset advances by the page and HasMoreResults says whether rows remain |
| `ZipCodes.AddDistricts` | api/Shared/Services/ZipCodeService.cs:26-29 | the foreach appends the page's districts in order |
| `ZipCodes.ZipCodeService.GetDistrictsByZipCode` | api/Shared/Services/ZipCodeService.cs:17-32 | the while loop over the iterator has the container's state and the result of the lookup function |
| `Mail.StudentInformationShowsEveryRow` | api/Shared/Services/EmailSender.cs:140-160 | the form summary contains every one of its fifteen labelled lines |
| `Mail.GreetingRepeatsFragment` | api/Shared/Services/EmailSender.cs:75-88 | with several districts, each district but the last is followed by ", Representatives,</h4>" and the paragraph; the last is preceded by "and " |
| `Mail.TwoDistrictGreeting` | api/Shared/Services/EmailSender.cs:75-88 | for two districts, the closing tag and the paragraph appear once per district |
| `Mail.EmptyDistrictGreeting` | api/Shared/Services/EmailSender.cs:69-88 | with no districts, the greeting is only its unfinished opening |
| `Mail.GreetingNamesDistricts` | api/Shared/Services/EmailSender.cs:69-88 | the greeting names every district |
| `Mail.DistrictEmailShowsDistrictsAndForm` | api/Shared/Services/EmailSender.cs:65-96 | the district mail names every district and contains every line of the form summary |
| `Mail.CountryEmailShowsCountryAndForm` | api/Shared/Services/EmailSender.cs:99-109 | the country mail names the title-cased country and contains every line of the form summary |
| `Mail.ReplyNamesStudentAndResponder` | api/Shared/Services/EmailSender.cs:112-137 | the reply contains the student's name and the responder |
| `Mail.ResponderNamesDistricts` | api/Shared/Services/EmailSender.cs:115-125 | a district responder names every district |
| `Mail.CountryReplyNamesNoCountry` | api/Shared/Services/EmailSender.cs:54 | the reply of the country path names no country, only "Rotary Districts " |
| `Mail.DistrictReplyNamesCountry` | api/Shared/Services/EmailSender.cs:35 | the reply of the district path goes to the student and names the title-cased country |
| `Mail.SendEmailStep` | api/Shared/Services/EmailSender.cs:166-196 | one SMTP call is recorded; with no fault the result is no errors; a loggable fault becomes its message; any other fault escapes as a NullReferenceException |
| `Mail.SendEmailThrowsOnlyNullReference` | api/Shared/Services/EmailSender.cs:191-195 | the only exception that can leave SendEmailAsync is the logger's NullReferenceException |
| `Mail.SendPairStep` | api/Shared/Services/EmailSender.cs:29-42 | the representatives' mail is sent first, the reply at most second; there are no errors exactly when neither call faulted |
| `Mail.SendPairMergesErrors` | api/Shared/Services/EmailSender.cs:33-41 | the errors are the first mail's followed by the reply's; a raising send ends the pair with that message as the only error, and a raising first send skips the reply |
| `Mail.NoticeStep` | api/CreateInterestFormEntry.cs:100 | a notice is one recorded call; it gives no errors without a fault, and the fault's message otherwise |
| `Mail.EmailSender.constructor` | api/Shared/Services/EmailSender.cs:19-24 | the sender keeps its sending address |
| `Mail.EmailSender.SendEmailAsync` | api/Shared/Services/EmailSender.cs:166-196 | the relay's new state and the result are those of the send step |
| `Mail.EmailSender.DistrictEmailBodyGenerator` | api/Shared/Services/EmailSender.cs:65-96 | the body the loop builds is the district mail body |
| `Mail.EmailSender.SendPair` | api/Shared/Services/EmailSender.cs:29-42 | the relay's new state and the errors are those of the pair step |
| `Mail.EmailSender.SendDistrictEmailAsync` | api/Shared/Services/EmailSender.cs:27-43 | the relay's new state and the errors are those of the district pair of mails |
| `Mail.EmailSender.SendCountryEmailAsync` | api/Shared/Services/EmailSender.cs:46-62 | the relay's new state and the errors are those of the country pair of mails |
| `Mail.EmailSender.SendCountryOrDistrictNotFoundEmailAsync` | api/CreateInterestFormEntry.cs:100 | the relay records one not-found notice for the submission as it stands |
| `Mail.EmailSender.SendDistrictNotCertifiedEmailAsync` | api/CreateInterestFormEntry.cs:126 | the relay records one not-certified notice for the submission as it stands |
| `Intake.FrontFailure` | api/CreateInterestFormEntry.cs:46-51 | the handler stores nothing and ends with 500 or the logger's NullReferenceException; a shallow exception ends before any mail; with no fault a loggable exception gives exactly one alert to the operator and 500 |
| `Intake.AuditStep` | api/CreateInterestFormEntry.cs:41-51 | the audit copy is written first; the function goes on exactly when that write succeeded, and otherwise ends with the documents unchanged |
| `Intake.Construct` | api/CreateInterestFormEntry.cs:58 | the constructor returns exactly when no string property is null, then gives the new Guid, no errors, the trimmed fields and the canonical country; otherwise a NullReferenceException |
| `Intake.StringFields` | api/Shared/Models/InterestFormSubmission.cs:42-56 | the fourteen string properties the constructor trims are all present exactly when no property is null |
| `Intake.ParseSubmission` | api/CreateInterestFormEntry.cs:55-59 | parsing succeeds exactly when the deserialiser returned an object with no null string property; a deserialiser exception is passed on, and a JSON null becomes a NullReferenceException |
| `Intake.NullPropertyEscapes` | api/CreateInterestFormEntry.cs:58-64 | a null string property makes the parse throw, and its handler then ends with an escaping exception instead of 500 |
| `Intake.HandleFrontFailure` | api/CreateInterestFormEntry.cs:46-51 | the relay's new state and the result are those of the failure handler |
| `Routing.TopAddressesMembers` | api/CreateInterestFormEntry.cs:81-90 | an address is gathered exactly when the newest record of one of the districts lists it |
| `Routing.TopAddressesKeepDuplicates` | api/CreateInterestFormEntry.cs:88 | an address listed by two districts is gathered twice |
| `Routing.GatherAddresses` | api/CreateInterestFormEntry.cs:81-90 | the loop returns the newest records' addresses district by district, only reads, and succeeds when nothing faults |
| `Routing.DistrictRoute` | api/CreateInterestFormEntry.cs:74-106 | the district path only reads and sends, keeps the submission's id and fields, only appends errors, and starts with the zip-code lookup; its outcomes are stated by `Routing.DistrictFoundErrors` and `Routing.DistrictMissingRecorded` |
| `Routing.DistrictMail` | api/CreateInterestFormEntry.cs:78-95 | the found-districts branch only reads and sends and only appends errors |
| `Routing.DistrictMissing` | api/CreateInterestFormEntry.cs:97-105 | the not-found branch only sends and only appends errors |
| `Routing.CertifiedCountryRoute` | api/CreateInterestFormEntry.cs:108-143 | the country path of the single function only reads and sends, only appends errors, and starts with the query for the country |
| `Routing.BatchCountryRoute` | api/CreateInterestFormEntries.cs:105-128 | the country path of the batch function only reads and sends, only appends errors, and starts with the query for the country |
| `Routing.DistrictFoundMails` | api/CreateInterestFormEntry.cs:78-95 | with districts found and nothing faulting, the representatives of the newest records receive the district mail, and the submission gains no error |
| `Routing.DistrictFoundErrors` | api/CreateInterestFormEntry.cs:78-95 | with districts found and their addresses gathered, whatever faults: the districts are those listing the zip code, the addresses those of their newest records, the next call is the district mail to them, the errors the two sends report are appended and nothing is raised |
| `Routing.DistrictFoundAddresses` | api/CreateInterestFormEntry.cs:76-90 | the lookup's districts are those listing the zip code and the foreach gathers the addresses of their newest records |
| `Routing.DistrictRouteSends` | api/CreateInterestFormEntry.cs:76-79 | with districts found, the district path continues as the found-districts branch from the lookup's state |
| `Routing.DistrictMailSends` | api/CreateInterestFormEntry.cs:91-95 | with the addresses gathered, the district mail comes first, the reply (if sent) goes to the student with the district reply body, the two sends' errors are appended and nothing is raised |
| `Routing.DistrictMissingRecorded` | api/CreateInterestFormEntry.cs:97-105 | with no district found, "District not found by zip code" is the next error; the single function then sends one notice, after which at most its one error follows, and the batch function sends nothing |
| `Routing.UncertifiedGetsOnlyNotice` | api/CreateInterestFormEntry.cs:114-132 | an uncertified country gets no mail; exactly one not-certified notice is sent, and at most its one error is added |
| `Routing.CertifiedCountryMails` | api/CreateInterestFormEntry.cs:108-127 | with a certified country found, the next call is the country mail from the sender to the newest record's addresses, with the mail subject and the country body; the reply, if sent, goes to the student; the errors are those of the pair; with nothing faulting both mails are sent and no error is added |
| `Routing.CountryMissingRecorded` | api/CreateInterestFormEntry.cs:134-142 | with no country record, "country not found" is the next error and the one call after the query is the not-found notice for that submission; at most the notice's one error follows |
| `Routing.BatchCountryMissingRecorded` | api/CreateInterestFormEntries.cs:123-126 | in the batch function, with no country record, "country not found" is added and nothing is sent |
| `Routing.BatchMailsAnyCountry` | api/CreateInterestFormEntries.cs:111-121 | in the batch function, a country with a record gets the country mail to its newest record's addresses, certified or not; the reply (if sent) goes to the student; the two sends' errors are appended and nothing is raised |
| `Routing.MainBlock` | api/CreateInterestFormEntry.cs:70-144 | the submission is created first; when the create succeeds, the document is stored and the routing query follows; when it fails, the try block stops there with that exception |
| `Routing.GatherAddressesAsync` | api/CreateInterestFormEntry.cs:81-90 | the nested foreach has the container's state and the result of the gathering function |
| `Routing.DistrictRouteAsync` | api/CreateInterestFormEntry.cs:74-106 | the container, the submission's error list and the exception are those of the district path |
| `Routing.CertifiedCountryRouteAsync` | api/CreateInterestFormEntry.cs:108-143 | the container, the submission's error list and the exception are those of the certified country path |
| `Routing.BatchCountryRouteAsync` | api/CreateInterestFormEntries.cs:105-128 | the container, the submission's error list and the exception are those of the batch country path |
| `Routing.MainBlockAsync` | api/CreateInterestFormEntry.cs:70-144 | the container, the submission's error list and the exception are those of the try block |
| `SingleEntry.CatchBlock` | api/CreateInterestFormEntry.cs:157-173 | the catch block stores nothing and records the message; it ends with the BadRequest text for the id or the logger's exception; a shallow exception ends it before any mail; a loggable one sends exactly one alert, from the sender to itself, with subject "Failure to send to database or process submission" and the message and the submission's type name in the body |
| `SingleEntry.CatchBadRequestIff` | api/CreateInterestFormEntry.cs:157-173 | the catch block answers BadRequest exactly when the exception is loggable and the alert either succeeds or fails loggably |
| `SingleEntry.AlertFailureEscapes` | api/CreateInterestFormEntry.cs:163-171 | when the alert fails unloggably, the failure is recorded as an error and still escapes |
| `SingleEntry.Conclude` | api/CreateInterestFormEntry.cs:145-173 | the answer is Ok with the submission exactly when nothing was raised and there are no errors; with nothing raised, a submission with errors is upserted, and when that upsert does not fault the answer is BadRequest with the id and errors; a BadRequest from the catch block (after a raised exception or a faulted upsert) stores nothing |
| `SingleEntry.SingleRun` | api/CreateInterestFormEntry.cs:40-173 | the audit copy is the first call; there is no submission exactly when the audit write or the parse failed; 500 only comes from those; Ok has no errors and BadRequest has some; the submission's id is the new Guid |
| `SingleEntry.AuditFailureStoresNothing` | api/CreateInterestFormEntry.cs:41-51 | a failed audit write stores nothing, and the answer is 500 exactly when both the write's exception and the alert's fault are loggable |
| `SingleEntry.ParseFailureStoresOnlyAudit` | api/CreateInterestFormEntry.cs:53-65 | a failed parse leaves only the audit copy stored |
| `SingleEntry.CreateBeforeRouting` | api/CreateInterestFormEntry.cs:67-72 | the submission is created right after the audit copy, and routing starts only after that |
| `SingleEntry.QuietRunStoresSubmission` | api/CreateInterestFormEntry.cs:67-155 | with nothing faulting and a complete form, the answer is Ok or BadRequest and the final submission is stored |
| `SingleEntry.CatchAsync` | api/CreateInterestFormEntry.cs:157-173 | the relay, the error list and the result are those of the catch block |
| `SingleEntry.Proceed` | api/CreateInterestFormEntry.cs:67-173 | the container, the result and the submission are those of the try block and its conclusion |
| `SingleEntry.Run` | api/CreateInterestFormEntry.cs:40-173 | the function's container state, result and submission are those of the whole run |
| `Responses.EmptyReport` | api/Shared/Models/InterestFormsResponse.cs:7-12 | the response starts with no successes, no errors and no listed submissions |
| `Responses.ErrorSubmission.constructor` | api/Shared/Models/InterestFormsResponse.cs:22-26 | an ErrorSubmission holds the id and the submission's own error list object |
| `Responses.Entries` | api/Shared/Models/InterestFormsResponse.cs:18-27 | each listed entry shows its id and its error list as it stands now |
| `Responses.InterestFormsResponse.constructor` | api/Shared/Models/InterestFormsResponse.cs:7-12 | the counts are zero and the list is empty |
| `BatchEntries.CatchItem` | api/CreateInterestFormEntries.cs:142-159 | the item catch stores nothing, counts one error and records the message; it lists the submission once unless the logger's exception escapes, which happens exactly when an exception is unloggable; a shallow exception leaves the world unchanged, and a loggable one sends exactly one alert, from the sender to itself, with subject "Failure to send to database or process submission" and the message and the submission's type name in the body |
| `BatchEntries.ItemSpec` | api/CreateInterestFormEntries.cs:69-159 | one turn counts one success (with no errors and no listing) or one or two errors; every listing carries errors; without an escape, listings equal counted errors |
| `BatchEntries.ItemCreatedBeforeRouting` | api/CreateInterestFormEntries.cs:72-74 | each item is created first, and, when that succeeds, routed right after |
| `BatchEntries.ArrivingErrorsCount` | api/CreateInterestFormEntries.cs:129-131 | an item that arrives with errors in its JSON is never counted as a success |
| `BatchEntries.UpsertFaultCountsTwice` | api/CreateInterestFormEntries.cs:129-145 | an item is counted twice as an error exactly when its upsert faults, and it is then listed twice |
| `BatchEntries.DeepItemCompletes` | api/CreateInterestFormEntries.cs:142-159 | when every fault is loggable, no turn lets an exception escape |
| `BatchEntries.QuietItemCountsOnce` | api/CreateInterestFormEntries.cs:129-140 | with nothing faulting, each item is counted exactly once, as a success exactly when routing left it without errors |
| `BatchEntries.Apply` | api/CreateInterestFormEntries.cs:129-158 | a turn adds its counts and appends its listings of the submission, keeping the earlier ones |
| `BatchEntries.BatchLoop` | api/CreateInterestFormEntries.cs:66-160 | the loop can only be left by the logger's exception; it preserves one listing per counted error and non-empty listings, and counts between one and two per item; the exact total is stated by `BatchEntries.BatchLoopCountsTotal`, and which submissions it lists, and in what order, by `BatchEntries.BatchLoopTurns` |
| `BatchEntries.DoubleCounted` | api/CreateInterestFormEntries.cs:131-145 | the number of turns counted twice is at most the number of turns, and zero exactly when no turn has two failures |
| `BatchEntries.BatchLoopCountsTotal` | api/CreateInterestFormEntries.cs:66-160 | whatever faults, a loop that runs to the end adds to CountSuccess + CountError one per item plus one per item counted twice |
| `BatchEntries.Turns` | api/CreateInterestFormEntries.cs:66-160 | the turns of the foreach, item by item up to the first escape: turn j is about item j, a turn that lists its submission counted it as failed and not as a success, and without an escape it lists it once per counted error |
| `BatchEntries.Owner` | api/CreateInterestFormEntries.cs:132-157 | each listed ErrorSubmission belongs to a turn that listed, and shows that turn's id and error list |
| `BatchEntries.OwnerOrdered` | api/CreateInterestFormEntries.cs:66-160 | the listings keep the order of the items: a later entry never belongs to an earlier item |
| `BatchEntries.OwnerCovers` | api/CreateInterestFormEntries.cs:132-157 | every turn that listed its submission owns an entry of the listings |
| `BatchEntries.BatchLoopTurns` | api/CreateInterestFormEntries.cs:66-160 | the foreach completes exactly when every item had a turn and none let an exception escape; its response then holds the earlier entries followed by the turns' listings, in item order |
| `BatchEntries.QuietLoopCountsEach` | api/CreateInterestFormEntries.cs:66-160 | with nothing faulting, the loop completes and counts each item exactly once |
| `BatchEntries.DeepLoopCompletes` | api/CreateInterestFormEntries.cs:66-160 | when every fault is loggable, the loop completes |
| `BatchEntries.BatchRun` | api/CreateInterestFormEntries.cs:39-161 | the audit copy is the first call, 500 only follows a failed audit write or parse, there is never a BadRequest, and Ok lists one submission per counted error; which ones is stated by `BatchEntries.BatchRunListsFailures` |
| `BatchEntries.BatchRunCountsTotal` | api/CreateInterestFormEntries.cs:39-161 | in an Ok answer, CountSuccess + CountError is the number of items plus the number counted twice, and equals the number of items exactly when no turn counted twice (which `BatchEntries.UpsertFaultCountsTwice` ties to a faulted upsert) |
| `BatchEntries.BatchRunLoops` | api/CreateInterestFormEntries.cs:39-161 | an Ok answer follows a successful audit write and carries the response the foreach built |
| `BatchEntries.BatchRunListsFailures` | api/CreateInterestFormEntries.cs:39-161 | an Ok answer lists exactly the failed items, in item order: every item had a turn, every entry shows the id of an item whose turn counted a failure and no success, and every such item is listed |
| `BatchEntries.NullListEscapes` | api/CreateInterestFormEntries.cs:56-67 | a JSON null array escapes as a NullReferenceException |
| `BatchEntries.QuietBatchCountsEach` | api/CreateInterestFormEntries.cs:66-161 | with nothing faulting, the answer is Ok, the counts add up to the number of items, and the listings match the errors |
| `BatchEntries.DeepBatchAnswers` | api/CreateInterestFormEntries.cs:66-161 | when every fault is loggable and the audit write succeeds, the answer is Ok |
| `BatchEntries.CatchItemAsync` | api/CreateInterestFormEntries.cs:142-159 | the relay, the error list and the escape are those of the item catch; CountError goes up by one, and the submission is listed once unless the exception escapes |
| `BatchEntries.ProcessItem` | api/CreateInterestFormEntries.cs:69-159 | the container, the error list, the counts and the listings are those of one turn |
| `BatchEntries.Turn` | api/CreateInterestFormEntries.cs:67-159 | the response's new value is the previous one with the turn applied |
| `BatchEntries.Run` | api/CreateInterestFormEntries.cs:39-161 | the function's container state and result are those of the whole batch run |

## Left out

- **The hosting environment.** The model leaves out the HTTP trigger, reading the request body stream, environment variables, and the creation of the Cosmos and SMTP clients. The request body, the sender's address, the Guids and the outcome of JSON deserialisation are parameters.
- **MIME, SMTP and Cosmos DB protocols.** Each call to the relay or the container is one event. Its success or failure comes from a fault script, not from the network. This covers malformed addresses, authentication failures and create conflicts on duplicate ids.
- **Asynchrony.** Every `await` is a sequential step, because the functions await each call before the next.
- **Logger output.** What `LogError` and `LogException` write is not modelled. `LoggingService.LogError` cannot fail and has no effect in the model.
- **`JsonSerializer.Serialize` and `ToString`.** Their use inside the catch blocks is assumed not to throw; only their result would go to the logger.
- **Unseen notice senders.** `SendCountryOrDistrictNotFoundEmailAsync` and `SendDistrictNotCertifiedEmailAsync` do not appear in `EmailSender.cs`. They are modelled as one recorded call each. A faulted call yields its message as the only error.
- **Members used but not declared.** `ContactsForCountry.IsCertified` and the parameterless `InterestFormSubmission` constructor are used by the functions but not declared in the model classes. The first is a field of the country record. The second is taken to leave every property as the JSON gives it.
- **Nulls in batch items.** A batch item without an `Errors` list, or with a null string property, is not modelled; such properties would give `NullReferenceException`s. Items carry a list and strings.
- `Intake.Construct`: models only the constructor's outcome on null properties; the deserialiser's own exceptions are a parameter.
- **Letter case and title case.** `ToLower` is modelled on ASCII letters only. `TextInfo.ToTitleCase` is an uninterpreted function held by the sender, because culture-dependent casing is outside the model.
- **White space.** The set of white-space characters is the one `String.Trim` uses. No Unicode normalisation is modelled.
- **Counters.** `CountSuccess` and `CountError` are unbounded integers. The source's 32-bit counters would only wrap after about 1.07 billion items, since `CountError` rises by two for an item whose upsert faults.
- **Query timestamps and grouping.** `TOP 1 ... ORDER BY c._ts desc` breaks ties between equal timestamps in favour of the document stored last. `GROUP BY c.District` yields districts in order of first appearance, and a page holds at most a fixed number of rows. Cosmos DB promises neither order. `Store.ZipPageStep` also returns a non-empty page while rows remain, which is what makes the paging loop end; Cosmos DB's feed iterator does not promise that either.
- **Batch object creation.** The batch function's objects are created turn by turn from the deserialised records rather than all at once. No turn reads another turn's object, so the states are the same.
- `ZipCodes.DistrictLookup`: its own contract only names the first call; what it returns is stated by `ZipCodes.DistrictLookupCorrect`.
- **Other files.** `CreateContactsForDistricts.cs`, `GetContactsForDistrict.cs`, `TestZipCodes.cs` and `IEmailSender.cs` are not part of this model. They maintain or query contact records outside the submission pipeline, or are unused.
