# ChillBroo core logic in Dafny

ChillBroo is a content-creation assistant: a React client plus an Express
server. Most of its code is network, store or UI plumbing. This project models
the small pieces of sequential logic inside it whose behaviour can be stated
exactly. What those pieces receive from outside is given to them as plain
inputs: the TF-IDF term lists, the HTTP answers and the parsed RSS and HTML.

The modules:

- `Wrappers` holds `Option` and `Result`.
- `Lists` holds the JavaScript array operations the code uses:
  - `filter`, `map`, `slice(0, n)` and `flat`;
  - the order of an insertion-ordered `Set`, as `FirstOccurrences`;
  - counting and subsequence facts.
- `JsString` holds the string built-ins the code uses: `trim`, the `\s`
  regular expressions, `toLowerCase`, `includes`, `split`/`join`, `replace`
  of one character and `parseInt`.
- `Onboarding` is the three-step onboarding wizard, as a class `Wizard`
  with fields `step`, `userData` and `errors`. It has the pure `StepValidation`,
  `Merge` and `Transition` that specify its methods.
- `Analytics` is the aggregation loop of the analytics page. It builds the
  per-platform list in first-occurrence order and the per-day dictionary.
- `TrendingTopics` is the server's trending-topics handler. It has three
  nested loops (feeds, titles, words) that fill an insertion-ordered set,
  followed by `slice(0, 9)`.
- `GithubTrends` is `getTrendingRepos`: the loop that turns each row of
  the trending page into a record, including the star-count parse.
- `Keywords` is the keyword route. It merges the TF-IDF and Datamuse
  keywords, sorts them stably by score and keeps ten.
- `Framework` is the framework route: the five-section outline template.
- `Recommendations` is the recommendation route:
  - the case-insensitive trend filter;
  - the `<span>` stripping of Wikipedia snippets;
  - the related topics;
  - the concatenation of the answer.
- `ApiCache` is `fetchWithCache`. It covers the cache key, a model of
  `JSON.stringify` for the parameters, and a class `ResponseCache` around the
  module-level `Map`. A call is split at its `await` into a lookup and a
  completion, so that calls which overlap can be described too.
- `Templates` is the templates page, as a class `TemplatesPage`: add,
  delete, the draft form and the card preview.
- `UserProfile`, `UserSettings` and `SocialMediaPreview` are the pure state
  updaters and the rendering choices of three components.
- `ContentSlice` and `UserSlice` are the two Redux slices, as classes whose
  reducers are methods.

## Model

| member | source | states |
|---|---|---|
| Onboarding.StepOneValidation | src/pages/Onboarding.tsx:29-37 | Step 1 records the name error exactly when the trimmed name is empty. It records the industry error exactly when no industry is chosen. It records no other error. The step is valid exactly when the name is not blank and an industry is chosen |
| Onboarding.StepTwoValidation | src/pages/Onboarding.tsx:38-46 | Step 2 records the platforms error exactly when no platform is chosen. It records the content-type error exactly when none is chosen. It records no other error. The step is valid exactly when both are present |
| Onboarding.OtherStepsValidate | src/pages/Onboarding.tsx:25-27 | Any step other than 1 and 2 validates with an empty error object |
| Onboarding.Wizard.ValidateStep | src/pages/Onboarding.tsx:25-51 | Stores the error object of the step for the current data, and returns true exactly when that object is empty |
| Onboarding.Wizard.constructor | src/pages/Onboarding.tsx:14-22 | The wizard starts on step 1 with empty user data, no errors and no navigation |
| Onboarding.Wizard.HandleNext | src/pages/Onboarding.tsx:53-63 | Validates the current step. On failure the step stays. On success it moves forward one step, or on step 3 navigates to `/dashboard` without moving. The step stays within 1..3 |
| Onboarding.Wizard.HandleBack | src/pages/Onboarding.tsx:65-69 | Goes back one step, except on step 1, where nothing changes. The step stays within 1..3 |
| Onboarding.Wizard.HandleSkip | src/pages/Onboarding.tsx:71-77 | Goes forward without validating, and navigates to `/dashboard` from step 3. The step stays within 1..3 |
| Onboarding.Wizard.UpdateUserData | src/pages/Onboarding.tsx:79-81 | The user data becomes the old data with the fields the partial carries replaced |
| Onboarding.MergeLaws | src/pages/Onboarding.tsx:79-81 | An empty partial changes nothing. A partial applied twice acts once. Two partials in turn act as their combination, the later one winning |
| Onboarding.MergeNameOnly | src/pages/Onboarding.tsx:79-81 | A partial carrying only the name changes the name and nothing else |
| Onboarding.TransitionStep | src/pages/Onboarding.tsx:53-77 | One event keeps the step in 1..3. The step rises exactly on a passing Next or a Skip below step 3. It falls exactly on a Back above step 1. Finishing leaves the step unchanged. A failing Next changes nothing |
| Onboarding.RunStaysInRange | src/pages/Onboarding.tsx:14 | From step 1, or any step in 1..3, no sequence of Next, Back and Skip leaves 1..3 |
| Onboarding.ForwardMovesBound | src/pages/Onboarding.tsx:53-77 | Over a sequence of events, the step rises by at most the number of passing Nexts and Skips |
| Analytics.FindPlatform | src/pages/Analytics.tsx:45 | `find` gives the index of an entry for the platform, or -1 exactly when no entry has it |
| Analytics.AggregateContent | src/pages/Analytics.tsx:39-58 | Each platform is listed once, in order of its first document, and its count is its number of documents. The dictionary holds exactly the dates of the documents, each with its number of documents. The per-day list follows the dictionary's key order |
| Analytics.PlatformStep | src/pages/Analytics.tsx:45-47 | Incrementing an existing entry keeps the list equal to the first occurrences of the platforms seen and keeps each count equal to the platform's number of documents |
| Analytics.NewPlatformStep | src/pages/Analytics.tsx:48-50 | Pushing a new entry at 1 keeps the same two invariants |
| Analytics.DailyStep | src/pages/Analytics.tsx:53-54 | `(dailyData[date] \|\| 0) + 1` keeps the day keys equal to the dates seen, in first-set order, and each value equal to the day's number of documents |
| Analytics.PlatformTallyShape | src/pages/Analytics.tsx:42-50 | No platform is listed twice. Every count is its platform's number of documents and at least 1. The platforms listed are exactly those of the documents |
| Analytics.PlatformTallyOrder | src/pages/Analytics.tsx:48-49 | Entries are in the order in which their platforms first occur among the documents |
| Analytics.PlatformTallyTotal | src/pages/Analytics.tsx:42-50 | The platform counts add up to the number of documents |
| Analytics.DailyTallyProperties | src/pages/Analytics.tsx:53-58 | Every day's count is at least 1. No day is listed twice. The daily counts add up to the number of documents |
| Analytics.TallyTotal | src/pages/Analytics.tsx:42-55 | Over the distinct values of a list, the occurrence counts add up to the list's length |
| TrendingTopics.ExtractTopics | server/src/routes/trendingTopics.ts:19-37 | Fails with "Failed to fetch trending topics" exactly when some feed could not be fetched or parsed. Otherwise it answers the first nine distinct qualifying words, in order of first appearance over feeds, titles and words |
| TrendingTopics.AddTitles | server/src/routes/trendingTopics.ts:23-30 | After one feed's titles, the set is the distinct qualifying words seen so far, in first-appearance order |
| TrendingTopics.AddWords | server/src/routes/trendingTopics.ts:24-29 | After one title's words, the set is the distinct qualifying words seen so far, in first-appearance order |
| TrendingTopics.AddWord | server/src/routes/trendingTopics.ts:26-28 | The callback on one word keeps the set equal to the distinct qualifying words seen so far, in first-appearance order |
| TrendingTopics.AddWordStep | server/src/routes/trendingTopics.ts:26-27 | `Set.add` of a qualifying word appends it exactly when it is new, and leaves the set otherwise |
| TrendingTopics.TitleWordsMembership | server/src/routes/trendingTopics.ts:24 | A word is among the words of some titles exactly when splitting one of the titles on a space yields it |
| TrendingTopics.FeedWordsMembership | server/src/routes/trendingTopics.ts:21-25 | A word is among the words of the feeds exactly when some title of some fetched feed yields it |
| TrendingTopics.TopicsProperties | server/src/routes/trendingTopics.ts:19-33 | There are at most nine topics and no two are equal; the comparison is case-sensitive. Each is longer than three characters, is not a common word when lower-cased, holds no space and is a word of some title. A qualifying word left out means nine topics were already found |
| GithubTrends.GetTrendingRepos | server/src/index.ts:162-179 | One record per row, in page order, each built from its own row |
| GithubTrends.NameShape | server/src/index.ts:169 | The name holds no whitespace, keeps the heading's other characters in order, and counts each of them as often as the heading does |
| GithubTrends.UrlShape | server/src/index.ts:170 | The url starts with `https://github.com`; a row without a link gives `https://github.comundefined` |
| GithubTrends.StarCountDigits | server/src/index.ts:173 | A count written in digits only is read as the value of those digits |
| GithubTrends.StarCountDecimal | server/src/index.ts:173 | Every rendered natural number is read back |
| GithubTrends.StarCountOneComma | server/src/index.ts:173 | `a,b` with digit groups a and b is read as the digits of a and b together |
| GithubTrends.StarCountTwoCommas | server/src/index.ts:173 | Only the first comma is removed, so `a,b,c` is read as `ab` alone (`1,234,567` gives 1234) |
| GithubTrends.StarCountNoDigits | server/src/index.ts:173 | Text without any digit counts 0 stars (`NaN \|\| 0`) |
| GithubTrends.StarCountOtherLead | server/src/index.ts:173 | Text whose trimmed form starts with anything but a digit, a sign or a comma counts 0 stars, whatever digits follow (`abc12` gives 0) |
| GithubTrends.StarCountLeadingComma | server/src/index.ts:173 | A leading comma is the first comma and is dropped, so `,` followed by digits counts the value of the digits (`,12` gives 12) |
| GithubTrends.TrimCount | server/src/index.ts:169-173 | `trim` removes whitespace only: every other character keeps its count |
| JsString.TrimStart | server/src/index.ts:169-173 | `trimStart` gives the suffix left after a whitespace-only prefix, and that suffix starts with no whitespace |
| JsString.TrimEnd | server/src/index.ts:169-173 | `trimEnd` gives the prefix left before a whitespace-only suffix, and that prefix ends with no whitespace |
| JsString.TrimShape | src/pages/Onboarding.tsx:30 | `trim` gives a contiguous piece of the text with only whitespace around it, beginning and ending with no whitespace |
| JsString.TrimEmptyIffBlank | src/pages/Onboarding.tsx:30 | The trimmed text is empty exactly when the text is all whitespace |
| JsString.TrimIdentity | server/src/index.ts:173 | Text neither starting nor ending with whitespace is its own trim |
| JsString.RemoveWhitespaceShape | server/src/index.ts:71 | `replace(/\s+/g, '')` leaves no whitespace, keeps every other character in order, and keeps each one's count |
| JsString.ToLowerIdempotent | server/src/index.ts:198-199 | Lower-casing twice is lower-casing once |
| JsString.IncludesIff | server/src/index.ts:198-199 | `includes` holds exactly when the text occurs at some position |
| JsString.Split | server/src/routes/trendingTopics.ts:24 | `split` yields at least one piece, and no piece holds the separator |
| JsString.JoinSplit | server/src/routes/trendingTopics.ts:24 | Joining the pieces of a split gives the text back |
| JsString.SplitJoin | server/src/index.ts:60 | Splitting a join of separator-free pieces gives the pieces back |
| JsString.DecimalRoundTrip | server/src/index.ts:60 | The digits `${n}` renders read back as n |
| JsString.ParseIntDecimal | server/src/index.ts:173 | `parseInt` reads back every rendered natural number |
| JsString.ParseIntDigitLed | server/src/index.ts:173 | `parseInt` of text starting with a digit is the value of its leading digits |
| JsString.RemoveFirst | server/src/index.ts:173 | `replace(',', '')` drops exactly one character when a comma is present, and changes nothing otherwise |
| Keywords.CombineKeywords | server/src/index.ts:97-111 | Fails with "Failed to generate keywords" exactly when the TF-IDF keyword list is empty, since `keywords[0]` throws |
| Keywords.CombinedProperties | server/src/index.ts:104-106 | There are at most ten keywords, and exactly ten when the two lists hold that many. They are sorted by non-increasing score, each is one of the input keywords, and together they are the top of a permutation of the merged list. Every keyword left out scores at most as much as every one kept |
| Keywords.SortSorted | server/src/index.ts:105 | The sort gives a list sorted by non-increasing score that is a permutation of its input |
| Keywords.SortStable | server/src/index.ts:105 | The sort is stable: the entries of each score keep their input order |
| Keywords.InsertPermutes | server/src/index.ts:105 | Inserting adds the one entry and nothing else |
| Keywords.InsertSorted | server/src/index.ts:105 | Inserting into a sorted list keeps it sorted |
| Keywords.InsertStable | server/src/index.ts:105 | Inserting places the entry after every entry of its own score |
| Keywords.TopScores | server/src/index.ts:106 | The first n entries of a sorted list are sorted, form a prefix, number n when there are that many, and score at least as much as every later entry |
| Framework.GenerateFramework | server/src/index.ts:44-79 | Fails with "Failed to generate framework" exactly when the term list is empty, since `topics[0].replace` throws |
| Framework.MainPointsNumbered | server/src/index.ts:60 | At most three main points, numbered from 1, taken in order from the second, third and fourth terms |
| Framework.MainPointsSplit | server/src/index.ts:60 | With one term or none the block is empty. Otherwise, when no term holds a line break, the block splits back into one line per point |
| Framework.FrameworkHook | server/src/index.ts:56 | The outline holds the hook line, which names the first term, or the default text when that term is empty |
| Framework.FrameworkMainPoints | server/src/index.ts:59-60 | The outline holds the main-points section |
| Framework.FrameworkHashtags | server/src/index.ts:70-71 | The outline holds the hashtag line, whose first tag is the first term with no whitespace |
| Framework.RouteTopics | server/src/index.ts:51-77 | The route's topics are the first five TF-IDF terms in rank order, and the outline fails exactly when there is no term |
| Framework.EmptyTopicsFail | server/src/index.ts:71-77 | With no terms the route fails, whatever the platform |
| Recommendations.MentionsSomeIff | server/src/index.ts:197-200 | `some` holds exactly when one of the terms occurs, ignoring case, in the name or the description |
| Recommendations.TrendsProperties | server/src/index.ts:195-209 | At most ten trends, one per kept repository and in the same order. The kept repositories are a subsequence of the page's, each mentioning some term. A mentioning repository is left out only when ten were kept |
| Recommendations.StripSpans | server/src/index.ts:224 | The cleaned snippet is never longer than the snippet |
| Recommendations.StripSpansSubsequence | server/src/index.ts:224 | What remains keeps its characters in their original order |
| Recommendations.StripSpansUnchangedIff | server/src/index.ts:224 | A snippet is unchanged exactly when no span tag occurs in it |
| Recommendations.TagShortens | server/src/index.ts:224 | A snippet holding a span tag gets shorter |
| Recommendations.NoAngleKept | server/src/index.ts:224 | A snippet without `<` is unchanged |
| Recommendations.StripBeforeTag | server/src/index.ts:224 | `<span...>` or `</span...>` is removed and the plain text before it kept |
| Recommendations.StripHighlighted | server/src/index.ts:224 | A highlighted match `a<span x>b</span>c` becomes `abc` |
| Recommendations.StripSpansNotIdempotent | server/src/index.ts:224 | One pass is not always enough: `<<span>span>` becomes `<span>` |
| Recommendations.CombineProperties | server/src/index.ts:232-237 | The answer is the trends followed by the topics, each tagged, so every trend comes before every topic |
| Recommendations.RecommendationsBound | server/src/index.ts:222-237 | At most ten related topics, each a cleaned result of one term's search, and at most twenty entries in all |
| ApiCache.Stringify | src/utils/api.ts:10 | The serialized parameters are an object literal, framed by braces |
| ApiCache.EscapeRoundTrip | src/utils/api.ts:10 | Escaping a string value loses nothing: it reads back as the original |
| ApiCache.EscapeCharRoundTrip | src/utils/api.ts:10 | Each escaped character reads back as itself, whatever follows it |
| ApiCache.EscapeNoBareQuote | src/utils/api.ts:10 | An escaped string holds no unescaped quote, so its literal ends at its closing quote |
| ApiCache.CacheKeyProperties | src/utils/api.ts:9-10 | Omitted parameters and `{}` give the same key. Every key starts with the url and ends with `}` |
| ApiCache.Serve | src/utils/api.ts:12-23 | One call with no other call during its `await`. No entry is changed or removed, and a new key appears only for a successful fetch. A request is made exactly on a miss |
| ApiCache.ResponseCache.constructor | src/utils/api.ts:7 | The cache starts empty |
| ApiCache.ResponseCache.Lookup | src/utils/api.ts:10-14 | Only reads the cache. It gives the call's key and, exactly when the key is present, the stored data |
| ApiCache.ResponseCache.Complete | src/utils/api.ts:16-23 | After the `await`, a successful outcome is stored under the key, replacing what is there by then; a failure leaves the cache. The outcome is the answer |
| ApiCache.ResponseCache.FetchWithCache | src/utils/api.ts:9-24 | With no other call during its `await`: a hit answers the stored value without fetching and leaves the cache. A miss fetches. On success it stores and answers the data; on failure it leaves the cache and passes on the error |
| ApiCache.CompletionsKeepKeys | src/utils/api.ts:12-19 | For any interleaving of calls, in the order their requests complete: no key is ever removed, and a value differs from the earlier one only when a request for that key completed with exactly that data |
| ApiCache.OverlapOverwrites | src/utils/api.ts:12-18 | Two overlapping calls for an absent key both miss and both fetch, and the one that completes last is what stays cached. Called one after the other, the second would have been a hit on the first one's data |
| ApiCache.ServeTwice | src/utils/api.ts:12-19 | With the calls one after the other: after a successful fetch, asking again for the same key is a hit answering the same value |
| Templates.Preview | src/pages/Templates.tsx:93 | The card shows at most the first 100 characters of the content, followed by `...` |
| Templates.TemplatesPage.constructor | src/pages/Templates.tsx:12-19 | The page starts with the three sample templates, an empty draft and the form closed |
| Templates.TemplatesPage.OpenForm | src/pages/Templates.tsx:40 | Opens the form and changes nothing else |
| Templates.TemplatesPage.CancelForm | src/pages/Templates.tsx:79 | Closes the form and keeps the draft and the templates |
| Templates.TemplatesPage.EditDraft | src/pages/Templates.tsx:55-68 | Sets one field of the draft and changes nothing else |
| Templates.TemplatesPage.AddTemplate | src/pages/Templates.tsx:21-27 | With all three fields non-empty, appends one template with those fields and the given id, empties the draft and closes the form. Otherwise nothing changes |
| Templates.TemplatesPage.DeleteTemplate | src/pages/Templates.tsx:29-31 | The templates become those with another id, and nothing else changes |
| Templates.WhitespaceDraftAccepted | src/pages/Templates.tsx:22 | The check is presence only: fields of spaces pass, and any empty field fails |
| Templates.WithoutIdProperties | src/pages/Templates.tsx:30 | Deleting removes every template with the id and keeps the others in order. An absent id changes nothing |
| Templates.DeleteTwice | src/pages/Templates.tsx:30 | Deleting the same id twice acts once |
| Templates.EditedProperties | src/pages/Templates.tsx:55-68 | Each input sets its own field of the draft and leaves the other two |
| UserProfile.HandlePlatformChange | src/components/UserProfile.tsx:48-55 | The toggle leaves name, company, industry and content type unchanged |
| UserProfile.HandleInputChange | src/components/UserProfile.tsx:43-46 | Editing an input leaves the platforms unchanged |
| UserProfile.InputChangeFrame | src/components/UserProfile.tsx:43-46 | Each input sets its own field to the value and leaves the others |
| UserProfile.ToggleCases | src/components/UserProfile.tsx:50-52 | An absent platform is appended at the end. A present one is removed with all its occurrences |
| UserProfile.ToggleMembership | src/components/UserProfile.tsx:50-53 | The toggled platform's membership flips, and every other platform keeps its membership |
| UserProfile.ToggleKeepsOthers | src/components/UserProfile.tsx:50-53 | Apart from the toggled platform, the list is the same, in the same order |
| UserProfile.ToggleTwice | src/components/UserProfile.tsx:50-52 | Toggling an absent platform twice gives the list back |
| UserProfile.InitialPlatformToggle | src/components/UserProfile.tsx:15-21 | From the empty form, toggling a platform chooses that one alone, and toggling it again gives the empty form back |
| UserSettings.SetEmail | src/components/UserSettings.tsx:77-80 | The email checkbox sets the email flag only |
| UserSettings.SetPush | src/components/UserSettings.tsx:91-94 | The push checkbox sets the push flag only |
| UserSettings.SetPreference | src/components/UserSettings.tsx:107-111 | A category checkbox leaves the notification flags unchanged |
| UserSettings.CheckPreference | src/components/UserSettings.tsx:108-109 | Checking appends the category at the end without a duplicate check. The list grows by one and other categories keep their counts |
| UserSettings.UncheckPreference | src/components/UserSettings.tsx:110 | Unchecking removes every occurrence of the category and keeps the rest in order |
| UserSettings.CheckThenUncheck | src/components/UserSettings.tsx:107-111 | Checking a category that was not chosen and then unchecking it gives the settings back |
| UserSettings.InitialPreferences | src/components/UserSettings.tsx:15-18 | The five offered categories are distinct and none is checked initially, nor either notification. Checking one from the initial state chooses it alone; unchecking it gives the initial state back |
| SocialMediaPreview.TwitterPreview | src/components/SocialMediaPreview.tsx:47-48 | A tweet shows the first min(280, length) characters, a prefix of the content. `...` follows exactly when the content is longer than 280. At most 283 characters are shown |
| SocialMediaPreview.OtherPlatformPreview | src/components/SocialMediaPreview.tsx:47-48 | Every other platform shows the content unchanged, with no ellipsis |
| SocialMediaPreview.StylesDistinct | src/components/SocialMediaPreview.tsx:10-38 | The four platforms have four different styles, none of them the gray default, and each has an icon. Any other platform gets the gray default and no icon |
| ContentSlice.ContentState.constructor | src/store/slices/contentSlice.ts:9-13 | The list starts empty, with no last-visible cursor and `hasMore` true |
| ContentSlice.ContentState.SetGeneratedContent | src/store/slices/contentSlice.ts:19-21 | Replaces the list with the payload, and nothing else changes |
| ContentSlice.ContentState.AppendGeneratedContent | src/store/slices/contentSlice.ts:22-24 | The old items keep their positions and the payload follows them. An empty payload changes nothing. Nothing else changes |
| ContentSlice.ContentState.SetLastVisible | src/store/slices/contentSlice.ts:25-27 | Sets the cursor, and nothing else changes |
| ContentSlice.ContentState.SetHasMore | src/store/slices/contentSlice.ts:28-30 | Sets the flag, and nothing else changes |
| UserSlice.PlanNames | src/store/slices/userSlice.ts:5 | Each plan has its own name, and exactly `freemium`, `basic` and `pro` name a plan |
| UserSlice.UserState.constructor | src/store/slices/userSlice.ts:8-11 | The state starts with 0 credits on the freemium plan |
| UserSlice.UserState.SetCredits | src/store/slices/userSlice.ts:17-19 | Stores the payload verbatim, negative or not, and keeps the plan |
| UserSlice.UserState.SetPlan | src/store/slices/userSlice.ts:20-22 | Sets the plan and keeps the credits |

## Left out

- Network and store calls are left out:
  - Firestore;
  - the axios requests to GitHub, Datamuse, Wikipedia, the RSS feeds and the API;
  - `Promise.all` and `await`.

  Their results are inputs, and a failed RSS fetch or parse is an absent feed.
  A failed Datamuse request (server/src/index.ts:98), GitHub request (163) or
  Wikipedia request (212-228) is not modelled. Each would end its route in the
  500 error answer.
- Foreign libraries are left out: the TF-IDF term lists of `natural`, cheerio's selectors and xml2js parsing. The terms, the selected row texts and the parsed titles are inputs.
- Keyword scores are integers. The floating-point `Math.round(x * 100) / 100` rounding is not modelled.
- A character is one UTF-16 code unit. Surrogate pairs and non-ASCII case mapping in `toLowerCase` are not modelled.
- `ApiCache.Stringify`: parameter values are strings, integers and booleans only. Nested objects, arrays and non-integer numbers are not modelled. `params` passed as `null` is not modelled either: the default applies only to `undefined`, so `null` gives the key `url + "null"`. The property order is taken as given, so the integer-like keys that `JSON.stringify` lists first are the caller's concern.
- `ApiCache.Serve`, `ApiCache.ResponseCache.FetchWithCache` and `ApiCache.ServeTwice` describe a call that no other call overlaps. Two calls for one key that overlap across the `await` (src/utils/api.ts:17) both miss, both fetch, and the later `cache.set` overwrites. `ApiCache.ResponseCache.Lookup`, `ApiCache.ResponseCache.Complete`, `ApiCache.CompletionsKeepKeys` and `ApiCache.OverlapOverwrites` model that case.
- `GithubTrends.StarCount` and `JsString.ParseInt`: the value is an unbounded integer. JavaScript numbers lose precision above 2^53, which is not modelled.
- The credit ledger is not part of this model. No reserve or commit of credits exists in these files, and the Firestore increment in the checkout page is a store call.
- `UserSlice.UserState.SetCredits`: credits are unbounded integers, not JavaScript numbers.
- Logging (`console.log`/`console.error`) is left out, as are the HTTP status codes. The route failures carry only their error message.
- Navigation is recorded as the route passed to `navigate`; routing itself is not modelled.
- `Templates.TemplatesPage.AddTemplate`: the `Date.now()` id is a parameter.
- `Analytics.AggregateContent`: the `toISOString` date keys are taken as given. The object's key order is modelled as insertion order, which holds because the keys are never array indices.
- `UserProfile.HandleInputChange`: only the four named inputs are modelled. An input with another `name` would add a new property.
- `Onboarding.Wizard.UpdateUserData`: a partial whose field is present but `undefined` is modelled as the field being absent.
- `TrendingTopics.ExtractTopics`: an item without a title, and a channel without items, are not modelled. Either would throw.
- The key terms of the recommendation route and each term's search results are inputs.
- Rendering (JSX, CSS classes other than the preview styles, icons beyond their kind and colour) is left out.
- Loading and error flags of the components, and their fetch and submit handlers, are left out (network).
