# dnschecker: DNS lookup route and page, modelled in Dafny

The system looks up one domain name against seven DNS record types and shows the answers in a web page.
The model has two parts, plus the lemmas that join them:

- **The lookup route.** `GET /api/dns-lookup?domain=…` (`route.dfy`, module `DnsRoute`) rejects a missing or
  empty `domain` with status 400. Otherwise it walks the record types `A, AAAA, MX, NS, TXT, CNAME, SOA` in
  that order and asks the resolver once per type through the `resolveDns` switch. It stores each answer
  unchanged, or the string `"No record found"` when the query throws, and returns the dictionary with status 200.
  - The resolver is an oracle: four functions, standing for `resolve`, `resolveMx`, `resolveTxt` and
    `resolveSoa`. Each one settles to an answer or a thrown error.
  - The handler is a method with a loop over the type list. Its results dictionary keeps JavaScript's key
    insertion order.
  - A ghost out-parameter records the trace of resolver calls.
- **The lookup page.** `lookup.dfy`, module `DnsLookup`, covers four things:
  - the `formattedData` normalisation of the route's JSON into a `DnsResponse`;
  - the component's `hostname`/`data`/`loading`/`error` state, as the class `DnsLookupForm`, with its
    submit and reset handlers;
  - the empty-list checks of `RecordList` and `TxtRecordList`.

  The normalisation runs on a JSON value (`json.dfy`) with JavaScript's behaviour:
  - `.map` and `.flat` exist on arrays only and throw a TypeError on anything else;
  - `.length` is also read from strings;
  - SOA is tested for truthiness;
  - the first TypeError aborts the whole formatting, and its message goes to the error slot.
- **End-to-end lemmas.** `pipeline.dfy`, module `Pipeline`, applies the page's normalisation to the JSON the
  route sends. It proves that the page formats a reply exactly when the A, MX, NS and TXT queries all
  answered.
  - A sentinel string in any of those four entries throws.
  - The CNAME entry turns a sentinel into one record whose address is the sentinel.
  - The SOA entry turns a sentinel into one record with no fields.
  - When formatting succeeds, the lemmas give the exact records (one per answer, in order).
  - The TXT list is the concatenation of all segments.
  - AAAA never reaches the page.

Some of the code's behaviour is easy to misread:
- TXT answers are flattened one level, so segments stay separate strings. They are not joined per answer.
- A failed query does not become an empty list. The route stores a string, which breaks the page's
  formatting for A, MX, NS and TXT.
- The route queries the types one after another, not concurrently.
- The page drops AAAA.

## Model

| member | source | states |
|---|---|---|
| `DnsRoute.Dispatch` | src/app/api/dns-lookup/route.ts:31-45 | exactly the seven listed types get a resolver call; the call asks for the same domain and type; A, AAAA, CNAME and NS go to the generic `resolve`, the other three to their own call; any other type makes no call |
| `DnsRoute.ResolveDns` | src/app/api/dns-lookup/route.ts:30-46 | A/AAAA/CNAME/NS give the generic resolver's answer for that type; MX, TXT and SOA give `resolveMx`, `resolveTxt` and `resolveSoa`'s; any other type gives the string "Unsupported record type" |
| `DnsRoute.Put` | src/app/api/dns-lookup/route.ts:20-22 | assigning a dictionary key stores the value under it and leaves other entries alone; a new key goes last and an existing key keeps its place (JavaScript's order for keys that are not array indices, as every record type is); keys stay distinct and match the entries |
| `DnsRoute.FillEntries` | src/app/api/dns-lookup/route.ts:15-24 | assigning distinct keys one after another gives a dictionary with exactly those keys, in that order, each holding the value assigned to it |
| `DnsRoute.AggregateEntries` | src/app/api/dns-lookup/route.ts:15-24 | after the loop over distinct types, the dictionary's keys are those types in that order, with no other keys; each entry is what that type's own query stored |
| `DnsRoute.FailureIsolation` | src/app/api/dns-lookup/route.ts:17-23 | a type's entry depends on that type's query only: two resolvers that settle it alike give the same entry, whatever the other queries do |
| `DnsRoute.TotalFailure` | src/app/api/dns-lookup/route.ts:17-26 | when every query throws, all seven keys are still present, in order, each holding "No record found" |
| `DnsRoute.CallsForTypes` | src/app/api/dns-lookup/route.ts:17-19 | walking a list of served types makes exactly one resolver call per type, in list order: the switch's call for that type and the same domain |
| `DnsRoute.Get` | src/app/api/dns-lookup/route.ts:4-27 | a missing or empty domain gives 400 with "Domain parameter is required" and no resolver call; otherwise 200, keys exactly the seven types in list order, each entry the answer or "No record found"; one resolver call per type, in list order, for that domain, each the switch's call for its type (so MX, TXT and SOA use their own resolver functions) |
| `DnsRoute.Encode` | src/app/api/dns-lookup/route.ts:26 | a string list becomes an array of the same strings in order; an MX list becomes an array of objects with exactly `exchange` and `priority`; a TXT answer list becomes an array of segment arrays; an SOA record becomes an object with its seven fields; a string stays a string |
| `DnsRoute.Serialize` | src/app/api/dns-lookup/route.ts:9-26 | the error reply is an object with only `error`; a results reply is an object with exactly the dictionary's keys, each holding that entry's encoding |
| `DnsLookup.AddressRecords` | src/app/componenets/dns-lookup.tsx:52 | one record per A answer, in order, with only `address` set to that answer |
| `DnsLookup.CnameRecords` | src/app/componenets/dns-lookup.tsx:53 | throws exactly on undefined or null (reading `length`); a zero-length value gives no records; any other value gives one record whose address is the whole value |
| `DnsLookup.MxRecords` | src/app/componenets/dns-lookup.tsx:54-57 | succeeds exactly when no item is null, and otherwise throws on reading `exchange`; one record per item, in order, with only `exchange` and `priority` copied from the item |
| `DnsLookup.NameserverRecords` | src/app/componenets/dns-lookup.tsx:58 | one record per NS answer, in order, with only `nameserver` set |
| `DnsLookup.SoaRecords` | src/app/componenets/dns-lookup.tsx:59 | no records exactly when the value is falsy; otherwise exactly one record with only `nameserver` (from `nsname`) and `hostmaster` set |
| `DnsLookup.Flat` | src/app/componenets/dns-lookup.tsx:60 | a list with no nested arrays comes back unchanged |
| `DnsLookup.FlatAppend` | src/app/componenets/dns-lookup.tsx:60 | flattening distributes over concatenation |
| `DnsLookup.FlatOfStrings` | src/app/componenets/dns-lookup.tsx:60 | flattening the flattened TXT strings again changes nothing |
| `DnsLookup.FlatOfStringArrays` | src/app/componenets/dns-lookup.tsx:60 | flattening arrays of segment strings gives their concatenation; its length is the sum of the segment counts |
| `DnsLookup.Format` | src/app/componenets/dns-lookup.tsx:49-62 | a null body throws on reading `A`; on success `query` is the submitted hostname; formatting succeeds exactly when the body is an object, A, NS and TXT are arrays, MX is an array with no null item, and CNAME is present and not null; each records field is its normaliser's result |
| `DnsLookup.AaaaIgnored` | src/app/componenets/dns-lookup.tsx:19-29 | the formatted response does not depend on the body's AAAA entry; its records have only A, CNAME, MX, NS, SOA and TXT |
| `DnsLookup.Settle` | src/app/componenets/dns-lookup.tsx:43-69 | a rejected fetch or unparsable body gives the thrown message ("An error occurred" for a non-Error); a non-ok status gives "Failed to fetch DNS data"; data loads exactly when the status is ok, the body parses and formatting succeeds, with `query` set to the hostname; a formatting TypeError gives its message |
| `DnsLookup.DnsLookupForm.constructor` | src/app/componenets/dns-lookup.tsx:32-35 | starts with an empty hostname, no data, not loading, no error |
| `DnsLookup.DnsLookupForm.SetHostname` | src/app/componenets/dns-lookup.tsx:86 | only the hostname changes |
| `DnsLookup.DnsLookupForm.StartSubmit` | src/app/componenets/dns-lookup.tsx:39-44 | sets loading, clears error and data, keeps the hostname; the fetched URL is the route path with the hostname appended unencoded; the query is the captured hostname |
| `DnsLookup.DnsLookupForm.FinishSubmit` | src/app/componenets/dns-lookup.tsx:43-69 | on a loaded result data is set and error stays null; on a failure error is set and data stays null; loading always ends false; the hostname is kept |
| `DnsLookup.DnsLookupForm.HandleSubmit` | src/app/componenets/dns-lookup.tsx:37-70 | a whole submit ends not loading, with data or error (never both) decided by the outcome for the hostname at submit time |
| `DnsLookup.DnsLookupForm.HandleReset` | src/app/componenets/dns-lookup.tsx:72-76 | clears hostname, data and error; leaves loading as it was |
| `DnsLookup.RecordList` | src/app/componenets/dns-lookup.tsx:147-150 | shows "No <type> records found." exactly when the list is empty, and the records otherwise |
| `DnsLookup.TxtRecordList` | src/app/componenets/dns-lookup.tsx:189-201 | shows "No TXT records found." exactly when the list is empty, and the lines otherwise |
| `Pipeline.RouteEntry` | src/app/api/dns-lookup/route.ts:26 | under each record type, the JSON body sent holds that type's own stored value, encoded |
| `Pipeline.FormatSucceedsIff` | src/app/componenets/dns-lookup.tsx:49-62 | the page formats the route's body exactly when the A, MX, NS and TXT queries answered; a failed A query throws "rawData.A.map is not a function" first |
| `Pipeline.FormattedRecords` | src/app/componenets/dns-lookup.tsx:49-62 | with those four answered: one record per A, MX and NS answer, in order, with the answer's fields; TXT is the concatenated segments and is already flat; CNAME is empty, or one record holding the whole list, or one holding the sentinel; SOA is one record with nameserver/hostmaster, or one with no fields when the query failed |
| `Pipeline.SubmitAgainstRoute` | src/app/componenets/dns-lookup.tsx:43-69 | a submit against the 200 reply `Get` returns for a present domain loads data exactly when the A, MX, NS and TXT queries answered; a failed A query shows that TypeError's message |
| `Pipeline.MissingDomainShowsFetchError` | src/app/componenets/dns-lookup.tsx:45 | the route's 400 reply to a missing domain sets the page's error to "Failed to fetch DNS data" |

## Left out

- The DNS library, `fetch`, `res.json()` and the Next.js request and response objects are foreign I/O.
  - The resolver is a parameter: four functions that each settle to an answer or a thrown error.
  - The page's fetch outcome is an input to `FinishSubmit`/`HandleSubmit`.
  - Error reasons are opaque strings, since the code ignores them.
- URL building and parsing are not modelled. The page appends the hostname to the URL without encoding
  (`RequestUrl`), but the model does not parse the query string back. So the end-to-end lemmas take the
  route's domain and the page's query as separate inputs.
- Async scheduling and React's batching of state updates are not modelled. `StartSubmit` models the
  handler up to the `await`, and `FinishSubmit` models the continuation after it. Anything that happens
  while the fetch is in flight is a call of another method on the same object between the two.
  - The reset button is disabled while loading (`dns-lookup.tsx:98`), but `HandleReset` does not require
    this: a reset during a fetch keeps `Valid()`.
- DnsLookupForm.FinishSubmit: assumes one submit at a time (`requires loading`). The submit button is
  disabled while loading (`dns-lookup.tsx:91`), so a second submit cannot start before the first one
  finishes. The model does not cover overlapping submits. In the source, if a second fetch's continuation
  ran after the first had already set `error`, `setData` would leave both slots set.
- JSON has integers only; floating point is not modelled. `Serialize` keeps a JSON object's keys as a map.
  Insertion order is modelled in the route's dictionary (`Dict`), but not in the serialised JSON.
- TypeError messages use V8's wording with the source's own expression names. The exact text depends on the
  engine and on minification.
- A record field whose value is `undefined` is not told apart from an absent field (`None` in both cases).
  `ttl` is never set by the code.
- String `.length` counts UTF-16 code units in JavaScript and characters here. The code only compares it
  with 0, and both counts are 0 exactly for the empty string.
- The JSX rendering (`dns-lookup.tsx:78-145` and the list markup) and `src/app/page.tsx` (static text) are
  not modelled.
