# health-checker: a Dafny model of its sequential core

`health-checker.go` is a daily job for an RSS ingestion service. It reads
publisher documents from Cloudant and flattens their RSS feeds into one feed
list. On Fridays it emails each Client Success Manager the paused feeds they
own, after looking up each feed's owner in Salesforce. Every day it asks the
article database how many articles each feed ingested in the last 24 hours,
with up to ten attempts per feed in parallel goroutines. It gathers the
answers into a map, sorts the magazine names by count and writes them to a
CSV report that it mails out.

This project models the logic between those calls. Every external service is
an input value:
- a Cloudant document is a `Feeds.PublisherDoc`;
- a database attempt is a `Fetch.Attempt`;
- the order in which the channel delivers results is a sequence;
- Salesforce is a `Reminder.Resolver` function;
- the mail service is a `Reminder.Sender` function;
- Go's unspecified map iteration order is an arbitrary choice (`:|`).

Modules:
- `Feeds` (feeds.dfy): the flattening loop of `main`.
- `Fetch` (fetch.dfy): the per-feed retry loop and the fan-out over all feeds.
- `Aggregate` (aggregate.dfy): the last-write-wins map, key collection, and a stable insertion sort standing in for `sort.SliceStable`.
- `Report` (report.dfy): the rows `BuildCSV` writes, with `strconv.Itoa` and its inverse.
- `Soql` (soql.dfy): quote escaping and the Salesforce statement text.
- `Notify` (notify.dfy): the HTML of the reminder email.
- `Reminder` (reminder.dfy): `PausedFeedReminder`, which groups feeds by owner and sends one email per owner.
- `DailyRun` (daily.dfy): the daily report end to end.

Each loop is a method proved against a specification function. The
properties of that function are proved as lemmas.

## Model

| member | source | states |
|---|---|---|
| Feeds.FlattenFeeds | health-checker.go:147-170 | The nested loop computes exactly `Flatten(docs)`. It aborts on the first undecodable `RSS_Feeds` or non-string `Publisher_Name` of a document that has feeds. |
| Feeds.FlattenSucceedsIff | health-checker.go:148-165 | Flattening completes if and only if every document's feed list decodes and, when it has feeds, its publisher name is a string. |
| Feeds.FlattenLength | health-checker.go:160-169 | The flat list is as long as the sum of the per-document feed counts. |
| Feeds.FlattenAt | health-checker.go:160-168 | Feed `j` of document `i` sits at position `Offset(docs, i) + j`, which gives in-order concatenation. Its publisher is the document's `Publisher_Name`. Its URL, name, date and pause flag are copied from the RSS feed. |
| Feeds.FlattenAbortExtends | health-checker.go:152-156 | Once a prefix of the documents aborts the run, the whole run aborts with the same reason. |
| Fetch.IsSuccessStatus | health-checker.go:210 | With Go's truncating division, `StatusCode/100 == 2` holds exactly for codes 200 to 299, and never for a negative code. |
| Fetch.FirstSuccess | health-checker.go:207-222 | Returns the first succeeding attempt at or after `from`. Every attempt before it fails, and it succeeds unless it is the end of the script. |
| Fetch.FetchFeed | health-checker.go:205-234 | The loop makes between 1 and 10 attempts and every attempt but the last fails. It stays silent exactly when the last attempt fails, and then it made all 10. It panics exactly when a 2xx body does not decode. Otherwise it emits `MagazineData(FeedName, row count)`. |
| Fetch.Dispatch | health-checker.go:195-239 | The fan-out over all feeds computes `Dispatched`: one goroutine per feed, keyed by `FeedName`, and the results are a multiset. |
| Fetch.DispatchCrashIff | health-checker.go:213-216 | The run crashes if and only if some feed's goroutine panics. |
| Fetch.DispatchMembers | health-checker.go:195-234 | There are no more results than feeds. A value is among the results exactly when some feed's goroutine emitted it. |
| Fetch.DispatchCounts | health-checker.go:198-234 | Each value is collected exactly as many times as there are feeds whose goroutine sends it, so no two results are merged. |
| Fetch.DispatchKeys | health-checker.go:202-234 | Every result is keyed by the name of some feed. |
| Aggregate.Gather | health-checker.go:242-245 | The channel-draining loop computes `LastWrite(arrivals)`. |
| Aggregate.LastWriteKeys | health-checker.go:243-245 | The map's keys are exactly the magazine names among the results that arrived. |
| Aggregate.LastWriteValue | health-checker.go:244 | A key's value is the count of the last arrival with that key: later writes overwrite earlier ones. |
| Aggregate.LastWriteSize | health-checker.go:242-245 | The map has no more keys than values arrived. |
| Aggregate.ArrivalOrderIrrelevant | health-checker.go:238-245 | When no two results share a magazine name, every arrival order gives the same map. |
| Aggregate.CollectKeys | health-checker.go:248-251 | The loop builds a sequence with one entry for each key of the map and no duplicates. Their order is left unspecified. |
| Aggregate.StableSortByCount | health-checker.go:252-254 | The in-place insertion sort leaves the array equal to `SortByCount` of its old contents. |
| Aggregate.InsertAt | health-checker.go:252-254 | One insertion step places element `i` into the sorted prefix as `Insert` does and leaves the rest of the array unchanged. |
| Aggregate.SortByCountSorted | health-checker.go:252-254 | The sorted keys are in non-decreasing count order and are a permutation of the input. Keys of equal count keep their input order. |
| Aggregate.StableSortUnique | health-checker.go:252-254 | Any two sequences that are sorted by count and agree on the order within each count are equal. So `SortByCount` is the only possible result of a stable sort. |
| Aggregate.InsertSorted | health-checker.go:252-254 | Inserting into a sorted sequence keeps it sorted. |
| Aggregate.InsertMultiset | health-checker.go:252-254 | Inserting adds exactly the inserted element. |
| Aggregate.InsertFilter | health-checker.go:252-254 | Inserting an element appends it to the end of its own count class and leaves the other classes unchanged. |
| Report.ItoaRoundTrip | health-checker.go:332 | `Itoa` writes a decimal numeral that parses back to its input. It starts with '-' exactly for negative values, and its digits have no leading zero. |
| Report.DigitsOf | health-checker.go:332 | The digit string is non-empty, all digits and has no leading zero. |
| Report.RowReadsBack | health-checker.go:332 | A row has two fields: the key, and a numeral for the key's count, where a missing key counts as 0. |
| Report.BuildRows | health-checker.go:330-337 | The header `magazine,articles` comes first, then one row per key in key order. Each row is the key and a numeral that reads back as its count. |
| Soql.EscapeQuotes | health-checker.go:413 | The escaped name is longer by the number of quotes, and every quote in it has a backslash in front. |
| Soql.UnescapeEscape | health-checker.go:413 | Removing the backslash before each quote recovers the name. |
| Soql.QueryTextRoundTrip | health-checker.go:416 | The statement is the fixed prefix, then the escaped name, then a closing quote, and the name reads back out of it. |
| Notify.BuildBody | health-checker.go:443-447 | The accumulation loop computes `Body(feeds)`: the paragraphs laid end to end. The wrapper of line 463 is added around this body to give `HtmlContent`. |
| Notify.ConcatLayout | health-checker.go:445-447 | In the concatenated body, paragraph `i` occupies exactly `[Start(i), Start(i+1))`. |
| Notify.WrapLayout | health-checker.go:463 | Wrapping leaves the opening and closing texts in place and shifts every paragraph by the opening's length. |
| Notify.HtmlLayout | health-checker.go:443-463 | The email starts with the fixed opening and ends with the fixed closing. Between them, feed `i`'s paragraph sits at its offset. |
| Reminder.QueryKeyOverride | health-checker.go:354-358 | A feed is looked up under "The New York Times" when its publisher is exactly that string, and under its own feed name otherwise. |
| Reminder.GroupPausedFeeds | health-checker.go:350-378 | The grouping loop computes `GroupSpec`: it stops at the first query error or panic and otherwise appends each feed to its owner's group. The per-feed body is a helper that computes `StepFor`. |
| Reminder.GroupsAreAssignments | health-checker.go:350-378 | Each owner's group is exactly the feeds assigned to that owner, in input order. An owner has a group exactly when some feed is assigned to them. |
| Reminder.GroupMembership | health-checker.go:352-374 | A feed is in an owner's group if and only if it is paused and its lookup returned TotalSize 1 with that owner first. Unpaused feeds and feeds with zero or several matches are in no group. |
| Reminder.AssignedFeedsMember | health-checker.go:374 | A feed is among the feeds assigned to an owner if and only if it is in the list and assigned to that owner. |
| Reminder.GroupSpecStops | health-checker.go:358-374 | Grouping completes if and only if no lookup fails or panics. When it stops, it stops at the first feed whose lookup does. |
| Reminder.GroupStopExtends | health-checker.go:358-362 | Once a prefix stops the grouping loop, the whole loop stops the same way. |
| Reminder.SendAll | health-checker.go:380-386 | Each email goes to a distinct owner with that owner's full feed list, and all but the last were delivered. Without an error, every owner gets exactly one. With an error, the last send failed with it. |
| Reminder.SendDelivered | health-checker.go:380-386 | A delivered send to one more owner keeps the send log's invariant. |
| Reminder.SendFailedLast | health-checker.go:381-385 | A failed send ends the loop with a log whose last entry carries the error. |
| Reminder.PausedFeedReminder | health-checker.go:342-389 | A token error or a query error returns that error before any email is sent, and a lookup panic sends none. Otherwise sending behaves as `SendAll` promises for the computed groups. |
| DailyRun.GatheredKeysAreFeedNames | health-checker.go:195-245 | Every gathered magazine is some feed's name, and there are no more of them than feeds. |
| DailyRun.OrderedKeys | health-checker.go:248-254 | The keys, each once, in non-decreasing count order. |
| DailyRun.ReportRows | health-checker.go:242-254 | Every gathered magazine gets exactly one row with its last-written count, and counts never decrease down the rows. |
| DailyRun.DailyReport | health-checker.go:185-259 | The run crashes exactly when a goroutine panics. Otherwise the report has a header and at most one row per feed. Each row names a feed and carries its count, and the rows are in count order. |

## Left out

- Cloudant, HTTP, Salesforce, Brevo and the token exchange (`GetToken`) are network I/O. They become input values: documents, attempt scripts, a resolver function, a sender function and a token result.
- The Cloudant selector and `PostFind`: the documents it returns are the input to `Feeds`.
- Goroutines, the WaitGroup and the buffered channel. Their only effect is modelled: a multiset of results, delivered in an arbitrary given order.
- `time.Sleep`, the Friday gate and date formatting: the clock is not modelled. `DailyRun` and `Reminder` are separate entry points.
- JSON encoding and decoding: a decoded value or a decode failure is given directly. The `float32` fields of `DBRow` are not modelled, since only the row count is used.
- CSV quoting and file writes, `base64`, `os.Remove` and the report email's payload. The model stops at the row sequence.
- `BuildRows`: does not model a failing `w.Write`, because file I/O is not modelled.
- Environment variables and the hard-coded addresses. Of each email's recipient list, only the owner's address is kept.
- URL encoding of query parameters: the resolver receives the statement text before encoding.
- The panic race in the fan-out: `defer wg.Done()` still runs while a goroutine panics, so `wg.Wait()` can return and `main` can start gathering and writing the report before the process ends. The model goes straight to `RunCrashed` and does not capture that partial work.
- `FetchFeed`: does not model the logging and one-second sleep between attempts, because they have no effect on the result.
- `PausedFeedReminder`: the key override is stated through `QueryKey`, and the grouping loop calls it rather than repeating its `if`.
- The order of the reminder emails follows Go's unspecified map order. The model chooses any order and proves nothing about it.
- The code is followed wherever a prose description of the program differs from it:
  - a feed whose retries are exhausted is simply absent from the report, with no "unknown" row;
  - the aggregation key is the feed's name, not the `Magazine` field of the RSS entry, which is never read;
  - a decode failure after a 2xx response panics and ends the whole run.
