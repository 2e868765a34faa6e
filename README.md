# ai-gym-ios-app: the fetch, network and sign-in logic in Dafny

This project models the sequential logic inside a SwiftUI fitness client. Network, OS
and UI calls become inputs. The model covers:

- **The paged exercise fetcher** (`ExerciseViewModel`). It keeps the exercises loaded
  so far, a page cursor, a "more pages" flag, a loading flag that stops a second fetch
  while one is in flight, and the last error. A fetch is split at its one `await`:
  `BeginFetch` runs the guard, sets the loading flag and clears the error, and
  `CompleteFetch` applies what the request returned. `Refresh` and the reachability
  handler (`PathUpdate`) are built on `BeginFetch`. Value-level functions (`Begin`,
  `Complete`, `Fetch`, `FetchSession`) state the same steps. The lemmas about whole
  sessions are proved over them.
- **The HTTP helper** (`NetworkService.request`). It builds the request: the method's
  raw value, a JSON content type, and a bearer token when authentication is asked
  for. It then classifies the exchange as a decoded value or one `NetworkError`.
- **The display labels** of an exercise's body part, target muscle and equipment.
- **The sign-in wizard** (`AuthView`). It covers phone-number validation, step
  navigation, the error-to-message mapping, the login outcome's effect on the stored
  token and the step, the completion step, and logout. The token and signed-in flag
  live in a modelled `UserDefaults` store, which the training screen reads too.
- **The hex colour parsers** `Color(hex:)` and `UIColor(hex:)`. They are modelled up
  to the integer (a, r, g, b) channels. Round-trip lemmas are proved for the 3-, 6-
  and 8-digit forms, and a lemma shows the two copies agree.
- **Support modules.** `SwiftInt` models Swift's `Int(String)` and `"\(n)"`.
  `FoundationText` models trimming non-alphanumerics and `scanHexInt64`.

Behaviour worth noting, as the code has it:

- `refresh` does not always fetch. When a fetch is already in flight, the latch
  refuses refresh's own fetch. The page that was in flight then lands in the emptied
  list and sets the cursor (`RefreshDuringFetch`).
- The reachability handler fetches on every update whose path is satisfied while the
  list is empty, not only on a change from disconnected to connected.
- The cursor moves to the server's page + 1 only when that page string parses as an
  `Int`. Otherwise it stays, and the same page is fetched again (`UnparsedPageRepeats`).
- A non-200 application code is stored as `NetworkError.serverError("错误代码：<code>")`.
  It is not an `ExerciseError`. The fetcher never uses `ExerciseError`, which is
  modelled only for its descriptions.
- `logout` removes both keys. It then assigns `false` and `""` through the bound
  properties, so the store ends up holding those two values, not nothing.

## Model

| member | source | states |
|---|---|---|
| `ExercisePaging.ExerciseViewModel.constructor` | ai-gym-ios-app/ViewModels/ExerciseViewModel.swift:32-41 | A new fetcher has an empty list, cursor 1, more pages assumed, is idle with no error, and is not yet connected |
| `ExercisePaging.ExerciseViewModel.BeginFetch` | ai-gym-ios-app/ViewModels/ExerciseViewModel.swift:117-127 | A request starts iff more pages remain and no fetch is in flight. Otherwise nothing changes. When it starts, loading is on, the error is cleared, and the path names the current page with page size 20. List, cursor and flag are untouched |
| `ExercisePaging.ExerciseViewModel.CompleteFetch` | ai-gym-ios-app/ViewModels/ExerciseViewModel.swift:129-143 | Loading always ends. A 200 envelope appends its exercises after the old list, moves the cursor to the parsed page + 1 (or keeps it), and sets "more pages" iff the new cursor is at most totalPages. Any other code stores the server error carrying that code. A thrown error is stored as it is. On both failure paths list, cursor and flag are unchanged |
| `ExercisePaging.ExerciseViewModel.Refresh` | ai-gym-ios-app/ViewModels/ExerciseViewModel.swift:146-151 | The list is emptied, the cursor is 1 and more pages are assumed. The fetch for page 1 starts iff no fetch was in flight |
| `ExercisePaging.ExerciseViewModel.PathUpdate` | ai-gym-ios-app/ViewModels/ExerciseViewModel.swift:94-107 | The connected flag follows the path. A fetch is triggered iff the path is satisfied and the list is empty, and that fetch is still subject to the guard |
| `ExercisePaging.Begin` | ai-gym-ios-app/ViewModels/ExerciseViewModel.swift:118-121 | After the guard no further fetch can start. A refused fetch changes nothing. An admitted one turns loading on and clears the error. List, cursor and flag are never touched |
| `ExercisePaging.Complete` | ai-gym-ios-app/ViewModels/ExerciseViewModel.swift:129-143 | Loading ends and the old list stays a prefix. A 200 envelope adds exactly its page's count, keeps the error, and sets "more pages" iff the new cursor is at most totalPages. Any other outcome keeps list, cursor and flag and stores an error |
| `ExercisePaging.Fetch` | ai-gym-ios-app/ViewModels/ExerciseViewModel.swift:117-144 | A refused fetch changes nothing, an admitted one ends idle, and the old list stays a prefix |
| `ExercisePaging.Reset` | ai-gym-ios-app/ViewModels/ExerciseViewModel.swift:147-149 | The list is empty, the cursor is 1 and more pages are assumed. The loading flag and error are kept, so a fetch can start afterwards iff none was in flight |
| `ExercisePaging.NextCursor` | ai-gym-ios-app/ViewModels/ExerciseViewModel.swift:132-134 | An unparsable page keeps the cursor. A parsed page n gives n + 1, which lies in IntMin + 1 .. IntMax + 1 |
| `ExercisePaging.NextCursorReadsPage` | ai-gym-ios-app/ViewModels/ExerciseViewModel.swift:132-134 | A page written as `"\(n)"` for an `Int` n moves the cursor to n + 1 |
| `ExercisePaging.PageEndpoint` | ai-gym-ios-app/ViewModels/ExerciseViewModel.swift:125 | The path is `/exercises?page=`, then text that reads back as the page, then `&pageSize=20` |
| `ExercisePaging.FetchStep` | ai-gym-ios-app/ViewModels/ExerciseViewModel.swift:117-144 | One whole fetch: a refused fetch changes nothing. An admitted one ends idle, and either appends the page, advances the cursor and recomputes the flag with the error cleared, or keeps list, cursor and flag and stores the error |
| `ExercisePaging.ListOnlyGrows` | ai-gym-ios-app/ViewModels/ExerciseViewModel.swift:129-130 | Over any sequence of fetches the old list stays a prefix of the new one |
| `ExercisePaging.AdmittedSessionAppends` | ai-gym-ios-app/ViewModels/ExerciseViewModel.swift:117-144 | When every fetch of a session is admitted, the list is the old list followed by the data of every 200 envelope, in arrival order. Its length is the sum of the page sizes |
| `ExercisePaging.ThreePageScenario` | ai-gym-ios-app/ViewModels/ExerciseViewModel.swift:117-144 | Three pages of 20 from a server reporting 3 pages leave 60 exercises in page order and no more pages. A fourth fetch is a no-op |
| `ExercisePaging.UnparsedPageRepeats` | ai-gym-ios-app/ViewModels/ExerciseViewModel.swift:132-135 | When the page string does not parse, the cursor stays. The next fetch requests the same page and its exercises are appended twice |
| `ExercisePaging.RefreshDuringFetch` | ai-gym-ios-app/ViewModels/ExerciseViewModel.swift:146-151 | A refresh during an in-flight fetch resets the state, but the latch refuses its fetch. The in-flight page becomes the whole refreshed list |
| `ExercisePaging.ApplicationCodeError` | ai-gym-ios-app/ViewModels/ExerciseViewModel.swift:136-137 | The error for a non-200 application code is a server error whose message is `错误代码：` followed by text that reads back as the code |
| `ExercisePaging.ApplicationCodeErrorInjective` | ai-gym-ios-app/ViewModels/ExerciseViewModel.swift:136-137 | The error stored for a non-200 application code determines that code |
| `ExercisePaging.ErrorDescription` | ai-gym-ios-app/ViewModels/ExerciseViewModel.swift:12-27 | The server-error description embeds the code between fixed texts. The connection and unknown descriptions end with the carried details |
| `ExercisePaging.ServerErrorDescriptionInjective` | ai-gym-ios-app/ViewModels/ExerciseViewModel.swift:18-19 | Two different codes never get the same server-error description |
| `Network.FromRawValue` | ai-gym-ios-app/Services/NetworkService.swift:3-8 | A method read from a raw string has that string as its raw value |
| `Network.RawValueRoundTrip` | ai-gym-ios-app/Services/NetworkService.swift:3-8 | Each method reads back from its raw value, so the four raw values are distinct |
| `Network.BuildRequest` | ai-gym-ios-app/Services/NetworkService.swift:35-48 | The request carries the method's raw value and always `Content-Type: application/json`. `Authorization: Bearer <token>` is present iff authentication is asked for, with an empty token when none is stored. No other headers are set. The body is the encoding, or none when encoding failed |
| `Network.Exchange` | ai-gym-ios-app/Services/NetworkService.swift:50-64 | The do-block returns a value iff the status is 2xx and the body decoded. It throws a decoding error iff the status is 2xx and the body did not decode. 401 throws `unauthorized`. Any other status throws `serverError("Status code: <status>")`. A non-HTTP response throws `networkError` with an empty-domain, code -1 cause. A transport failure is passed on as a non-network error with its cause |
| `Network.Rewrap` | ai-gym-ios-app/Services/NetworkService.swift:65-71 | A thrown `NetworkError` is rethrown unchanged and a decoding error becomes `decodingError`. Any other error is wrapped as `networkError` with its cause |
| `Network.Request` | ai-gym-ios-app/Services/NetworkService.swift:25-72 | An address that does not parse gives `invalidURL` and sends nothing. Otherwise the request sent to the base URL plus the endpoint carries the method's raw value and exactly the JSON content-type header, plus `Authorization: Bearer <token>` (empty token when none is stored) iff authentication is asked for. Its body is the encoding, or none. The result is the classified exchange |
| `Network.ClassifyExchange` | ai-gym-ios-app/Services/NetworkService.swift:50-71 | Success iff 2xx and decoded. `decodingError` iff 2xx and not decoded. `unauthorized` iff 401. A server error iff any other status, and then exactly `serverError("Status code: <status>")`. `networkError` iff non-HTTP (with the empty-domain, code -1 cause) or a transport failure (with its cause). Never `invalidURL` or `noData` |
| `Network.StatusMessageInjective` | ai-gym-ios-app/Services/NetworkService.swift:62-63 | The server-error message determines the HTTP status |
| `Network.StatusMessage` | ai-gym-ios-app/Services/NetworkService.swift:62-63 | The message is the fixed head `Status code: ` followed by text that reads back as the status |
| `Network.RawValue` | ai-gym-ios-app/Services/NetworkService.swift:3-8 | Each raw value is an upper-case token of 3 to 6 letters |
| `Exercises.FormattedBodyPart` | ai-gym-ios-app/Models/Exercise.swift:36-45 | The five body parts get their fixed labels and any other value is returned unchanged |
| `Exercises.FormattedTarget` | ai-gym-ios-app/Models/Exercise.swift:47-56 | The five target muscles get their fixed labels and any other value is returned unchanged |
| `Exercises.FormattedEquipment` | ai-gym-ios-app/Models/Exercise.swift:58-66 | The four equipment values get their fixed labels and any other value is returned unchanged |
| `Exercises.BodyPartLabelling` | ai-gym-ios-app/Models/Exercise.swift:36-45 | A body part is changed iff it is one of the five keys. Distinct keys get distinct labels. Formatting a label again leaves it alone |
| `Exercises.TargetLabelling` | ai-gym-ios-app/Models/Exercise.swift:47-56 | The same three facts for target muscles |
| `Exercises.EquipmentLabelling` | ai-gym-ios-app/Models/Exercise.swift:58-66 | The same three facts for equipment |
| `Auth.IsValidPhone` | ai-gym-ios-app/Views/Auth/AuthView.swift:290-293 | A phone accepted by `^1[3-9]\d{9}$`, with `\d` read as the ASCII digits, has 11 characters, all ASCII digits |
| `Auth.ValidPhonesAreNumbers` | ai-gym-ios-app/Views/Auth/AuthView.swift:290-293 | A phone is accepted by `^1[3-9]\d{9}$` iff it is the decimal form of an integer from 13000000000 to 19999999999 |
| `Auth.AuthView.BeginPhoneLogin` | ai-gym-ios-app/Views/Auth/AuthView.swift:284-305 | A request is made iff the phone is valid and the password non-empty. The phone is checked first, with its message. An empty password with a valid phone gives the password message. Without a request, loading is unchanged. With one, loading is on and the error is cleared |
| `Auth.AuthView.CompletePhoneLogin` | ai-gym-ios-app/Views/Auth/AuthView.swift:308-331 | Loading ends. A reply stores its token and advances the step by one. A failure leaves token and step alone and shows `handleError`'s message |
| `Auth.AuthView.HandleBack` | ai-gym-ios-app/Views/Auth/AuthView.swift:272-278 | At step 0 the wizard is dismissed and the step kept. Otherwise the step goes back by one. The step never drops below 0 |
| `Auth.AuthView.HandleNext` | ai-gym-ios-app/Views/Auth/AuthView.swift:280-282 | The step goes forward by one |
| `Auth.AuthView.BeginComplete` | ai-gym-ios-app/Views/Auth/AuthView.swift:346-347 | Loading starts |
| `Auth.AuthView.FinishComplete` | ai-gym-ios-app/Views/Auth/AuthView.swift:350-354 | Loading ends, the user is stored as signed in, and the wizard is dismissed |
| `Auth.AuthView.Logout` | ai-gym-ios-app/Views/Auth/AuthView.swift:372-377 | The token reads as empty and the user as signed out. The store holds `""` and `false` for the two keys, and nothing else changes |
| `Auth.AuthView.constructor` | ai-gym-ios-app/Views/Auth/AuthView.swift:40-49 | The wizard starts at step 0, idle, with no error shown |
| `Auth.HandleError` | ai-gym-ios-app/Views/Auth/AuthView.swift:357-370 | A server error's message is a fixed prefix followed by the server's message |
| `Auth.HandleErrorDistinguishes` | ai-gym-ios-app/Views/Auth/AuthView.swift:357-370 | Two errors get the same message iff they are the same named case (server errors with the same text), or are both unnamed |
| `Auth.StepTitle` | ai-gym-ios-app/Views/Auth/AuthView.swift:90-97 | The title is non-empty exactly on steps 0 to 2 |
| `Auth.StepSubtitle` | ai-gym-ios-app/Views/Auth/AuthView.swift:99-106 | The subtitle is non-empty exactly on steps 0 to 2 |
| `Auth.StepTextsDistinct` | ai-gym-ios-app/Views/Auth/AuthView.swift:90-106 | The three steps have distinct titles and distinct subtitles |
| `Auth.GoalFromRawValue` | ai-gym-ios-app/Views/Auth/AuthView.swift:12-16 | A goal read from a raw string has that raw value |
| `Auth.GoalTables` | ai-gym-ios-app/Views/Auth/AuthView.swift:12-34 | Every goal is listed once in `allCases`, reads back from its raw value, and has its own label and icon |
| `Auth.GoalRawValue` | ai-gym-ios-app/Views/Auth/AuthView.swift:12-16 | Each raw value is a non-empty lower-case word |
| `Auth.GoalLabel` | ai-gym-ios-app/Views/Auth/AuthView.swift:18-25 | Each goal's label determines the goal |
| `Auth.GoalIcon` | ai-gym-ios-app/Views/Auth/AuthView.swift:27-34 | Each goal's icon name determines the goal |
| `Training.ColorChannels` | ai-gym-ios-app/Views/Training/TrainingView.swift:296-311 | Every channel is in 0..255. Alpha is 255 for 3 and 6 digits. The 3-digit channels are multiples of 17. Any other trimmed length gives (1, 1, 1, 0) |
| `Training.RgbHexRoundTrip` | ai-gym-ios-app/Views/Training/TrainingView.swift:305-306 | Six hex digits written from (r, g, b), with or without a leading '#', parse back to (255, r, g, b) |
| `Training.ArgbHexRoundTrip` | ai-gym-ios-app/Views/Training/TrainingView.swift:307-308 | Eight hex digits written from (a, r, g, b) parse back to (a, r, g, b), alpha first |
| `Training.ShortHexScales` | ai-gym-ios-app/Views/Training/TrainingView.swift:303-304 | Three hex digits parse to (255, 17x, 17y, 17z), so F gives 255 and 0 gives 0 |
| `Training.TrainingView.HandleProfilePress` | ai-gym-ios-app/Views/Training/TrainingView.swift:212-218 | Signed in: the profile sheet opens. Otherwise the login sheet opens. The other flag is untouched, so from a closed state exactly one sheet is open |
| `Training.TrainingView.constructor` | ai-gym-ios-app/Views/Training/TrainingView.swift:19-22 | Both sheets start closed |
| `TabBar.UIColorChannels` | ai-gym-ios-app/Views/TabBar/TabBarView.swift:73-88 | Every channel is in 0..255. Any trimmed length other than 3, 6 or 8 gives (1, 1, 1, 0) |
| `TabBar.UIColorMatchesColor` | ai-gym-ios-app/Views/TabBar/TabBarView.swift:75-88 | `UIColor(hex:)` gives the same integer channels as `Color(hex:)` for every string |
| `TabBar.TabKeysWellFormed` | ai-gym-ios-app/Views/TabBar/TabBarView.swift:11-51 | The five tab keys are distinct, the initial selection "training" is one of them, and the pages are tagged with exactly these keys in order |
| `FoundationText.TrimNonAlphanumerics` | ai-gym-ios-app/Views/Training/TrainingView.swift:298 | The result is a slice of the input. It is empty or starts and ends with an alphanumeric character. Only non-alphanumeric characters lie outside it, and it is empty iff the input has no alphanumeric character |
| `FoundationText.TrimIdempotent` | ai-gym-ios-app/Views/Training/TrainingView.swift:298 | Trimming twice equals trimming once |
| `FoundationText.TrimSkipsLeadingMark` | ai-gym-ios-app/Views/Training/TrainingView.swift:298 | A leading non-alphanumeric character such as '#' does not change the trimmed string |
| `FoundationText.ScanHexInt64` | ai-gym-ios-app/Views/Training/TrainingView.swift:299-300 | The scanned value fits a `UInt64` and is below 16 to the power of the string's length |
| `SwiftInt.ParseInt` | ai-gym-ios-app/ViewModels/ExerciseViewModel.swift:132 | `Int(page)` yields only values in the 64-bit range |
| `SwiftInt.ParseIntRoundTrip` | ai-gym-ios-app/ViewModels/ExerciseViewModel.swift:132-133 | `Int("\(n)") == n` for every `Int` n |
| `SwiftInt.IntToString` | ai-gym-ios-app/ViewModels/ExerciseViewModel.swift:137 | `"\(n)"` is non-empty and starts with '-' iff n is negative |
| `SwiftInt.IntToStringInjective` | ai-gym-ios-app/ViewModels/ExerciseViewModel.swift:137 | Distinct integers are written as distinct strings |
| `Storage.UserDefaults.constructor` | ai-gym-ios-app/Views/Auth/AuthView.swift:40-41 | The store starts with no keys, so the bound properties read their defaults |
| `Storage.UserDefaults.StringFor` | ai-gym-ios-app/Services/NetworkService.swift:41 | A string is returned iff the key holds a string, and it is that string |
| `Storage.UserDefaults.AccessToken` | ai-gym-ios-app/Views/Auth/AuthView.swift:41 | The bound token is the stored string, or `""` when there is none |
| `Storage.UserDefaults.IsAuthenticated` | ai-gym-ios-app/Views/Auth/AuthView.swift:40 | The bound flag is true iff the store holds `true` for it |
| `Storage.UserDefaults.Set` | ai-gym-ios-app/Views/Auth/AuthView.swift:320 | The key now maps to the value and the other keys are unchanged |
| `Storage.UserDefaults.Remove` | ai-gym-ios-app/Views/Auth/AuthView.swift:373-374 | The key is gone and the other keys are unchanged |

## Left out

- `ExercisePaging.NextCursor`: `page + 1` is computed on an unbounded integer, so a parsed page of `Int.max` gives `Int.max + 1` where Swift traps. `ExercisePaging.Complete`, `ExercisePaging.Fetch` and `ExercisePaging.ExerciseViewModel.CompleteFetch` compute the cursor through it and share this gap.
- `ExercisePaging.ExerciseViewModel.CompleteFetch`: the cursor update `page + 1` uses an unbounded integer. In Swift it traps when the server's page is `Int.max`.
- `FoundationText.TrimNonAlphanumerics`: only ASCII letters and digits count as alphanumeric, and the length is the count of characters. Foundation uses all Unicode letters, marks and digits, and Swift counts grapheme clusters. The two agree on ASCII input.
- `FoundationText.ScanHexInt64`: it reads the leading run of hex digits, gives 0 when there is none, and saturates on overflow. The scanner's optional `0x`/`0X` prefix is not modelled, so a trimmed literal starting with `0x` is read as 0 followed by a stop.
- `Auth.IsValidPhone`: `\d` is taken as the ASCII digits 0-9. The ICU pattern also accepts other Unicode decimal digits (for example Arabic-Indic digits), which the model rejects. `Auth.AuthView.BeginPhoneLogin` validates through it and shares this gap.
- `Auth.ValidPhonesAreNumbers`: `\d` is taken as the ASCII digits. The ICU pattern also accepts other Unicode decimal digits.
- The division of each channel by 255 into a floating-point colour is not modelled: floating point is out of scope.
- The URL session, JSON encoding and decoding, and `URL(string:)` are not modelled. They are inputs: the transport outcome, whether the body decoded, the body's encoding, and whether the address parses.
- The `await`/`Task`/`MainActor` hops are not modelled. They become sequential calls, split at the await: `BeginFetch`/`CompleteFetch`, `BeginPhoneLogin`/`CompletePhoneLogin`, `BeginComplete`/`FinishComplete`. The one-second delay in `handleComplete` is the gap between the last two.
- `NWPathMonitor` setup, its queue, its cancellation in `deinit`, and `printNetworkInterfaces` (interface enumeration and logging) are not modelled. They are OS calls; only the trigger condition is modelled.
- `StorageKeys` is not part of this model. Its two keys are modelled as two distinct constants, and the training screen's `"isAuthenticated"` is taken to be the same key as `StorageKeys.isAuthenticated`.
- `UserDefaults` string conversion of stored numbers is not modelled; the app only stores strings and flags.
- The error carried by `networkError(Error)` is reduced to a domain and a code.
- `handleAppleLogin` is not modelled: it depends on the AuthenticationServices framework.
- `handleHealthKitPress` is not modelled: it only opens the system settings URL.
- The HealthKit service is not modelled: it is a wrapper over a device framework.
- `UserProfile`, `NumberInputField` and the goal-picking button are not modelled: they hold floating-point body data or are view bindings.
- The SwiftUI views are not modelled. That includes the list's "last item appeared, so fetch" trigger, the alerts and sheets, `RoundedCorner`, and the `UUID` identifiers of tab and exercise items.
