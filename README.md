# Jira Stopwatch: issue-key extraction and REST request building

This project models two pieces of the Jira Stopwatch client in Dafny and proves properties of them.

- `JiraKeyHelpers.ParseUrlToKey` takes pasted text, usually a browse URL. It returns the first case-insensitive match of `[A-Z0-9_]+-\d+`, or the text itself when nothing matches. The model replaces the regular expression with two things. `IsKey` is the pattern written as a language. `FirstMatch` is a leftmost scanner, proved to find the match the regular-expression engine reports: the earliest start, and at that start the longest match.
- `JiraApiRequestFactory` has one builder per REST call. Each builder gets a fresh `RestRequest` from the request factory, with a path and an HTTP method. The three POST builders then set the JSON format and add a body. The worklog builder also appends the query parameters of its estimate-adjustment policy (`adjustEstimate`, `newEstimate`, `reduceBy` of the Jira REST API). `RestRequest` is a class whose methods update its fields, as RestSharp's request does. The builders are methods whose postconditions give the whole resulting request. The paths and parameters are given by functions: `IssuePath`, `JqlSearchPath` and `EstimateParameters`. Each of these has a reference reader that the model defines itself (`ParseIssuePath`, `ParseJqlSearchPath`, `ParseEstimate`), and a lemma proves that the reader recovers what was written. How a Jira server actually parses requests is not part of this model.

Files:

- `optional.dfy`: the `Option` datatype.
- `text.dfy`: .NET's `String.Trim`, as its forward and backward scans, with a reference definition of trimming (`IsTrimOf`) and proofs that `Trim` meets it and that it has only one solution.
- `jira_key_helpers.dfy`: the key extractor.
- `rest_request.dfy`: the request object that the builders fill in.
- `jira_api_request_factory.dfy`: the builders, their path and parameter functions, and the lemmas.

The model follows the code where the tests disagree with it. `JiraApiRequestFactoryTest.cs` expects `/rest/api/3/...` paths and a search path with no `fields` list. The code uses `/rest/api/2/...` for everything except the session call (`/rest/auth/1/session`) and the configuration call (`/rest/api/3/configuration`), and searches via `/rest/api/2/search/jql?jql=...&maxResults=200&fields=key,summary,project,timetracking`. The model uses the code's paths.

## Model

| member | source | states |
|---|---|---|
| `Text.IsWhiteSpace` | source/StopWatch/Jira/JiraApiRequestFactory.cs:60 | no contract of its own: the set of characters for which .NET's `Char.IsWhiteSpace` holds, which is what `String.Trim` removes |
| `Text.WhiteSpaceRunEnd` | source/StopWatch/Jira/JiraApiRequestFactory.cs:60 | the forward scan stops at the end of the maximal run of white space from the index |
| `Text.WhiteSpaceRunStart` | source/StopWatch/Jira/JiraApiRequestFactory.cs:60 | the backward scan stops at the start of the maximal run of white space ending at the index, never going below the lower bound |
| `Text.Trim` | source/StopWatch/Jira/JiraApiRequestFactory.cs:60-127 | no contract of its own: `String.Trim`, as applied to the key at lines 60, 66, 73, 109, 121 and 127; `Text.TrimIsTrimOf` and `Text.TrimOfUnique` specify it |
| `Text.TrimSpan` | source/StopWatch/Jira/JiraApiRequestFactory.cs:60 | the span between the two scans has only white space outside it and no white space at either end, and `Trim` returns exactly that span |
| `Text.TrimIsTrimOf` | source/StopWatch/Jira/JiraApiRequestFactory.cs:60 | `Trim(s)` is a slice of `s` with only white space outside it and no white space at either end |
| `Text.TrimOfUnique` | source/StopWatch/Jira/JiraApiRequestFactory.cs:60 | a string has exactly one trimming, so the reference definition fixes `Trim` entirely |
| `Text.TrimPadded` | source/StopWatchTest/JiraApiRequestFactoryTest.cs:87-91 | white space around a string with no white space at its ends is exactly what `Trim` removes |
| `Text.TrimUnpadded` | source/StopWatch/Jira/JiraApiRequestFactory.cs:60 | a string with no white space at its ends is returned unchanged |
| `Text.TrimIdempotent` | source/StopWatch/Jira/JiraApiRequestFactory.cs:60 | trimming twice is the same as trimming once |
| `Text.TrimChanges` | source/StopWatch/Jira/JiraApiRequestFactory.cs:60 | `Trim` changes a string if and only if the string has white space at one of its ends |
| `JiraKeyHelpers.KeyRunEnd` | source/StopWatch/Helpers/JiraKeyHelpers.cs:32 | the result ends the maximal run of `[A-Z0-9_]` characters (either case) from the given index |
| `JiraKeyHelpers.DigitRunEnd` | source/StopWatch/Helpers/JiraKeyHelpers.cs:32 | the result ends the maximal run of digits from the given index |
| `JiraKeyHelpers.MatchAt` | source/StopWatch/Helpers/JiraKeyHelpers.cs:32 | no contract of its own: the regular-expression engine's attempt at one start position; `JiraKeyHelpers.MatchAtCorrect` specifies it |
| `JiraKeyHelpers.MatchesAtIff` | source/StopWatch/Helpers/JiraKeyHelpers.cs:32 | a match starts at an index if and only if the run of key characters there is non-empty and followed by a hyphen and at least one digit, with only digits up to the match end |
| `JiraKeyHelpers.MatchAtCorrect` | source/StopWatch/Helpers/JiraKeyHelpers.cs:32 | the attempt at one start position returns the longest match starting there, and returns none exactly when no match starts there |
| `JiraKeyHelpers.FirstMatchFrom` | source/StopWatch/Helpers/JiraKeyHelpers.cs:32-34 | if the scan finds nothing, no match starts at or after the index; if it finds a span, that span matches, no earlier start matches, and no longer match has the same start |
| `JiraKeyHelpers.FirstMatch` | source/StopWatch/Helpers/JiraKeyHelpers.cs:32-34 | a span is found if and only if the text contains a match, and the span found is the leftmost-longest match |
| `JiraKeyHelpers.ParseUrlToKey` | source/StopWatch/Helpers/JiraKeyHelpers.cs:29-39 | with no match the text comes back unchanged; otherwise the result is the slice of the text, casing kept, that is the first match |
| `JiraKeyHelpers.ParseUrlToKeyIsKey` | source/StopWatch/Helpers/JiraKeyHelpers.cs:32-35 | a returned match has the shape "key characters, hyphen, digits", with at least one of each |
| `JiraKeyHelpers.FirstMatchUnique` | source/StopWatch/Helpers/JiraKeyHelpers.cs:32 | the first match is unique, so the returned key is fully determined |
| `JiraKeyHelpers.ParseUrlToKeyOfFirstMatch` | source/StopWatch/Helpers/JiraKeyHelpers.cs:32-35 | whenever a span is the first match, the extracted key is exactly that span of the text |
| `JiraKeyHelpers.FirstMatchDigitsMaximal` | source/StopWatch/Helpers/JiraKeyHelpers.cs:32 | the first match is not followed by a digit: the digit part is greedy |
| `JiraKeyHelpers.FirstMatchStartsRun` | source/StopWatch/Helpers/JiraKeyHelpers.cs:32 | the first match begins where a run of key characters begins |
| `JiraKeyHelpers.KeyIsOwnFirstMatch` | source/StopWatch/Helpers/JiraKeyHelpers.cs:32 | a whole key is its own first match |
| `JiraKeyHelpers.ParseUrlToKeyIdempotent` | source/StopWatch/Helpers/JiraKeyHelpers.cs:29-39 | extracting from an extracted result gives that same result |
| `JiraKeyHelpers.NoHyphenDigitEchoes` | source/StopWatch/Helpers/JiraKeyHelpers.cs:32-38 | text with no hyphen followed by a digit (a trailing `KEY-`, say) has no key and comes back unchanged |
| `JiraKeyHelpers.NoMatchInHyphenFreePrefix` | source/StopWatch/Helpers/JiraKeyHelpers.cs:32 | no match starts inside a hyphen-free prefix that ends on a non-key character |
| `JiraKeyHelpers.KeyLongestBeforeNonDigit` | source/StopWatch/Helpers/JiraKeyHelpers.cs:32 | a key followed by a non-digit is the longest match at its start |
| `JiraKeyHelpers.MatchesAtShift` | source/StopWatch/Helpers/JiraKeyHelpers.cs:32 | a match inside a string is a match at the shifted position of the string with any prefix before it, and the converse |
| `JiraKeyHelpers.ConcatAround` | source/StopWatchTest/JiraKeyHelpersTest.cs:38-39 | splitting a text into prefix, key and rest reads the key back at its offset |
| `JiraKeyHelpers.KeyAfterHyphenFreePrefix` | source/StopWatchTest/JiraKeyHelpersTest.cs:35-40 | a key after a hyphen-free prefix such as `http://host/browse/` is the one extracted; later look-alikes such as `key=FOO-555` are ignored |
| `JiraKeyHelpers.ParseUrlToKeyBareKey` | source/StopWatchTest/JiraKeyHelpersTest.cs:35 | `KEY-123` comes back as it is |
| `JiraKeyHelpers.ParseUrlToKeyBrowseUrl` | source/StopWatchTest/JiraKeyHelpersTest.cs:38-39 | from `http://jira.test.local/browse/KEY-123?foo=bar&key=FOO-555`, and from the same URL with path segments between the key and the query string, the result is `KEY-123` |
| `JiraKeyHelpers.ParseUrlToKeyNoKey` | source/StopWatchTest/JiraKeyHelpersTest.cs:46-48 | `ABC` and `http://jira.test.local/browse/KEY-` come back unchanged |
| `RestRequests.RestRequest.constructor` | source/StopWatch/Jira/JiraApiRequestFactory.cs:39 | the request factory's `Create` gives a request with the given path and method and nothing else set |
| `RestRequests.RestRequest.SetRequestFormat` | source/StopWatch/Jira/JiraApiRequestFactory.cs:74 | sets the format and changes nothing else |
| `RestRequests.RestRequest.AddBody` | source/StopWatch/Jira/JiraApiRequestFactory.cs:75-81 | sets the body and changes nothing else |
| `RestRequests.RestRequest.AddQueryParameter` | source/StopWatch/Jira/JiraApiRequestFactory.cs:84 | appends one parameter after those already present and changes nothing else |
| `JiraApiRequestFactory.IssuePath` | source/StopWatch/Jira/JiraApiRequestFactory.cs:60-127 | no contract of its own: the `String.Format` issue paths with the trimmed key; `JiraApiRequestFactory.IssuePathRoundTrip` specifies it |
| `JiraApiRequestFactory.SegmentEnd` | source/StopWatch/Jira/JiraApiRequestFactory.cs:60 | the result ends the path segment (up to `/` or `?`) that starts at the index |
| `JiraApiRequestFactory.SegmentEndAt` | source/StopWatch/Jira/JiraApiRequestFactory.cs:60 | the segment ends exactly at the first `/` or `?` after its start, or at the end of the path |
| `JiraApiRequestFactory.ResourceSuffixRoundTrip` | source/StopWatch/Jira/JiraApiRequestFactory.cs:60-127 | each resource is recognised again from its path suffix, and every suffix is empty or starts a new segment |
| `JiraApiRequestFactory.IssuePathRoundTrip` | source/StopWatch/Jira/JiraApiRequestFactory.cs:60-127 | reading back any issue path gives the trimmed key and the resource, provided the trimmed key has no `/` or `?` |
| `JiraApiRequestFactory.UnescapedKeyChangesResource` | source/StopWatch/Jira/JiraApiRequestFactory.cs:60-127 | the key is neither escaped nor checked: a key ending in a resource suffix makes the summary path equal to the path of that resource, and it is read back as that resource |
| `JiraApiRequestFactory.SlashInKeyExample` | source/StopWatch/Jira/JiraApiRequestFactory.cs:60 | the summary path of the key `A/worklog` is read back as the worklog of issue `A` |
| `JiraApiRequestFactory.PaddedKeyExample` | source/StopWatchTest/JiraApiRequestFactoryTest.cs:87-91 | the key `   FOO-42   ` puts `FOO-42` in every issue path |
| `JiraApiRequestFactory.IssuePathIgnoresPadding` | source/StopWatch/Jira/JiraApiRequestFactory.cs:60-127 | a padded key and the same key trimmed give the same path |
| `JiraApiRequestFactory.IssuePathNeverEmbedsRawKey` | source/StopWatch/Jira/JiraApiRequestFactory.cs:60-127 | a key with white space at an end never appears in the path as it was given |
| `JiraApiRequestFactory.JqlSearchPath` | source/StopWatch/Jira/JiraApiRequestFactory.cs:53 | no contract of its own: the JQL search path; `JiraApiRequestFactory.JqlSearchPathRoundTrip` specifies it |
| `JiraApiRequestFactory.JqlSearchPathRoundTrip` | source/StopWatch/Jira/JiraApiRequestFactory.cs:53 | the JQL text is recovered unchanged from between the fixed prefix and suffix: it is spliced in verbatim |
| `JiraApiRequestFactory.JqlSearchPathInjective` | source/StopWatch/Jira/JiraApiRequestFactory.cs:53 | different JQL texts give different search paths |
| `JiraApiRequestFactory.EstimateParameters` | source/StopWatch/Jira/JiraApiRequestFactory.cs:82-97 | no contract of its own: the query parameters the switch adds, in order; `JiraApiRequestFactory.EstimateParametersRoundTrip` specifies it |
| `JiraApiRequestFactory.Lookup` | source/StopWatch/Jira/JiraApiRequestFactory.cs:82-97 | a value is found if and only if a parameter has that name, and the value belongs to such a parameter |
| `JiraApiRequestFactory.EstimateParametersRoundTrip` | source/StopWatch/Jira/JiraApiRequestFactory.cs:82-97 | reading `adjustEstimate` and its companion parameter gives back exactly the adjustment chosen: leave, set to the value, reduce by the value, or auto |
| `JiraApiRequestFactory.EstimateValueUsedOnlyBySetToAndManualDecrease` | source/StopWatch/Jira/JiraApiRequestFactory.cs:86-93 | two different adjustment values give the same parameters if and only if the method is Leave or Auto |
| `JiraApiRequestFactory.EstimateParametersInjective` | source/StopWatch/Jira/JiraApiRequestFactory.cs:82-97 | equal parameters mean the same requested adjustment |
| `JiraApiRequestFactory.CreateValidateSessionRequest` | source/StopWatch/Jira/JiraApiRequestFactory.cs:37-41 | a fresh GET of `/rest/auth/1/session`, with nothing else set |
| `JiraApiRequestFactory.CreateGetFavoriteFiltersRequest` | source/StopWatch/Jira/JiraApiRequestFactory.cs:44-48 | a fresh GET of `/rest/api/2/filter/favourite`, with nothing else set |
| `JiraApiRequestFactory.CreateGetIssuesByJQLRequest` | source/StopWatch/Jira/JiraApiRequestFactory.cs:51-55 | a fresh GET of the search path with the JQL spliced in, with nothing else set |
| `JiraApiRequestFactory.CreateGetIssueSummaryRequest` | source/StopWatch/Jira/JiraApiRequestFactory.cs:58-62 | a fresh GET of `/rest/api/2/issue/` plus the trimmed key, with nothing else set |
| `JiraApiRequestFactory.CreateGetIssueTimetrackingRequest` | source/StopWatch/Jira/JiraApiRequestFactory.cs:64-68 | a fresh GET of the trimmed key's issue path with `?fields=timetracking`, with nothing else set |
| `JiraApiRequestFactory.CreatePostWorklogRequest` | source/StopWatch/Jira/JiraApiRequestFactory.cs:71-99 | a fresh JSON POST to the trimmed key's `/worklog` path, with body {timeSpent, started, comment} and exactly the query parameters of the chosen adjustment, in order |
| `JiraApiRequestFactory.CreateGetConfigurationRequest` | source/StopWatch/Jira/JiraApiRequestFactory.cs:101-104 | a fresh GET of `/rest/api/3/configuration`, with nothing else set |
| `JiraApiRequestFactory.CreatePostCommentRequest` | source/StopWatch/Jira/JiraApiRequestFactory.cs:107-117 | a fresh JSON POST to the trimmed key's `/comment` path with body {body = comment} and no query parameters |
| `JiraApiRequestFactory.CreateGetAvailableTransitions` | source/StopWatch/Jira/JiraApiRequestFactory.cs:119-123 | a fresh GET of the trimmed key's `/transitions` path, with nothing else set |
| `JiraApiRequestFactory.CreateDoTransition` | source/StopWatch/Jira/JiraApiRequestFactory.cs:125-138 | a fresh JSON POST to the trimmed key's `/transitions` path with body {transition = {id}} and no query parameters |
| `JiraApiRequestFactory.KeyIsPathSafe` | source/StopWatch/Helpers/JiraKeyHelpers.cs:32 | a key has no white space at its ends and no `/` or `?` |
| `JiraApiRequestFactory.ExtractedKeyAddressesIssue` | source/StopWatch/Helpers/JiraKeyHelpers.cs:29-39 | a key extracted from pasted text is unchanged by trimming, and reading it back from any issue path gives that key |

## Left out

- `JiraTimeHelpers`, which renders durations and timestamps, is not part of this model. The worklog builder takes its two formatting functions as parameters, over type parameters that stand for `TimeSpan` and `DateTimeOffset`.
- `JiraApiRequester` is not part of this model. It covers authentication, HTTP execution and mapping denied requests to an error.
- RestSharp internals are not modelled: JSON serialisation of the body, what a fresh request's `RequestFormat` is (`Unset`), and how query parameters are joined to a path that already holds a `?`.
- The `JiraApiRequestFactory` constructor and its `IRestRequestFactory` field are not modelled separately. The factory's `Create` is the `RestRequest` constructor.
- `JiraKeyHelpers.ParseUrlToKey`: the pattern is limited to ASCII. In .NET, `\d` also matches non-ASCII decimal digits, and `[A-Z]` with `IgnoreCase` can match a few non-ASCII letters, such as the Kelvin sign.
- Null strings are not modelled. In .NET a null key makes `Trim` throw, and a null text makes `Regex.Match` throw. Dafny strings cannot be null.
- `JiraApiRequestFactory.EstimateParameters`: the C# `switch` at JiraApiRequestFactory.cs:82-97 has no `default`, so an `EstimateUpdateMethods` value cast from any other integer adds no query parameter. The four-case datatype cannot hold such a value, so the model does not capture that case.
- `JiraApiRequestFactory.IssuePathRoundTrip` requires a trimmed key with no `/` or `?`, because the source neither escapes nor checks the key; `JiraApiRequestFactory.UnescapedKeyChangesResource` states what happens otherwise.
- The UI (`AboutForm.cs`) and both `AssemblyInfo.cs` files contain no logic and are left out.
- The test expectations that contradict the code (`/rest/api/3/...` paths) and the tests marked `Ignore("Moq problem")` are not stated as properties.
