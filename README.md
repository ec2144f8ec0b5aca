# AppLabTestiOS weather app: a Dafny model

This project models the sequential logic of a SwiftUI weather app. It has six parts.

- **Weather payload** (`WeatherModels`). The decoded payload `WeatherResponse` → `ResponseData` → `WeatherResult`, with its coding-key tables. It also holds the derived display fields: the wind-direction icon table, the truncated temperature and the high/low text.
- **Fetch client** (`Networking`). The two `fetchWeatherData` variants are pure functions. Each takes whether the URL parsed, what the session delivered and what the decoder produced. The async variant throws; the completion variant returns a `Result`. The module also holds `NetworkError` and its `errorDescription`.
- **Weather view model** (`WeatherPresentation`). A class with the four published fields. `loadWeatherData` is split into its synchronous start (`LoadWeatherData`) and the end of its task (`FinishLoad`). These steps may interleave in any order, which is how the missing in-flight guard is captured.
- **Navigation** (`Navigation`). The `MenuItem` tables, and a `NavigationManager` class holding the navigation stack, the selected item and the menu flag.
- **Localization** (`Localization`). The two-language table, and a `LocalizationManager` class that restores and saves the language preference.
- **Menu view model** (`Menu`). Selection state over the navigation and localization managers.

Each stateful Swift class is a Dafny class. Its methods state the new state as a step function applied to the old state: `State() == old(State()).NavigateTo(d)`. The step functions live on value types (`ViewState`, `NavState`). The lemmas about them are the invariants and interleaving properties.

Abstracted inputs:
- `URL(string:)` is a `bool`.
- `session.data(from:)` is a `DataReply`.
- The `dataTask` callback's three optionals are a `TaskReply`.
- `JSONDecoder` is a `Decoder` function parameter.
- `NSLocalizedString` and `.localized` are string-table parameters.
- `Double(String)` and `DateFormatter` are function parameters of `FormattedDate`.
- `UserDefaults` is a `PreferenceStore` object holding a map from keys to strings.
- The `shared` singletons are passed to `MenuViewModel` as constructor arguments.

Behaviour of the code worth knowing, all of it modelled as written:
- In the async variant a transport fault escapes unwrapped (`NetworkManager.swift:26`). The view model then shows the "data_error" text, not the fault's description.
- In the async variant `status == false` is rethrown as `unknown(apiError(message))` (`NetworkManager.swift:44-46`). The message shown is still the server's message, because `localizedDescription` of a `LocalizedError` is its `errorDescription`.
- The wind-direction table yields 15 distinct icon identifiers, because "S" shares `ic_N`.
- The weather view model's data and an error can coexist. After two overlapping loads, a late success can leave the error flag set beside fresh data (`OverlappingLoads`).

## Model

| member | source | states |
|---|---|---|
| WeatherModels.NatDigits | AppLabTestiOS/Models/WeatherModels.swift:84 | decimal text of a natural number is non-empty, all digits, with no leading zero |
| WeatherModels.NatDigitsRoundTrip | AppLabTestiOS/Models/WeatherModels.swift:84 | reading the digits of n back gives n |
| WeatherModels.IntTextRoundTrip | AppLabTestiOS/Models/WeatherModels.swift:84 | the interpolated text of an Int is plain decimal text (no leading zero, no "-0") that reads back as the same Int |
| WeatherModels.IntTextUnique | AppLabTestiOS/Models/WeatherModels.swift:84 | a text is plain decimal text reading back as n iff it is the interpolated text of n, so the formatted-text contracts fix the digits uniquely |
| WeatherModels.Truncate | AppLabTestiOS/Models/WeatherModels.swift:84 | `Int(x)` truncates toward zero: within one below a non-negative x, within one above a negative x |
| WeatherModels.Uppercased | AppLabTestiOS/Models/WeatherModels.swift:61 | same length, each character upper-cased |
| WeatherModels.WeatherResult.WindDirectionIcon | AppLabTestiOS/Models/WeatherModels.swift:60-80 | the icon is always one of the 15 identifiers, and never "ic_S" |
| WeatherModels.WindDirectionIconTable | AppLabTestiOS/Models/WeatherModels.swift:61-79 | each of the 15 points, in any case, maps to "ic_" + that point; every other direction maps to "ic_N" |
| WeatherModels.SouthAndUnknownGetNorthIcon | AppLabTestiOS/Models/WeatherModels.swift:66-78 | "S"/"s" and every unrecognised direction give "ic_N" |
| WeatherModels.WindDirectionIconIgnoresCase | AppLabTestiOS/Models/WeatherModels.swift:61 | two directions that differ only in letter case get the same icon |
| WeatherModels.WeatherResult.FormattedTemp | AppLabTestiOS/Models/WeatherModels.swift:83-85 | the text ends with the unit, with no separator, and what precedes it is plain decimal text reading back as the truncated temperature |
| WeatherModels.WeatherResult.FormattedHighLow | AppLabTestiOS/Models/WeatherModels.swift:88-90 | the text is "H:" hi "° L:" lo "°", where hi and lo are plain decimal texts reading back as the truncated high and low |
| WeatherModels.FormattedTempExamples | AppLabTestiOS/Models/WeatherModels.swift:83-85 | 21.9 with "°C" gives "21°C"; -3.5 gives "-3°C" |
| WeatherModels.FormattedHighLowExample | AppLabTestiOS/Models/WeatherModels.swift:88-90 | high 28.7 and low 18.2 give "H:28° L:18°" |
| WeatherModels.AllResultKeys | AppLabTestiOS/Models/WeatherModels.swift:40-54 | thirteen distinct result keys |
| WeatherModels.AllResultKeysComplete | AppLabTestiOS/Models/WeatherModels.swift:40-54 | every result key is among the thirteen |
| WeatherModels.WrapperKeys | AppLabTestiOS/Models/WeatherModels.swift:14-23 | the wrapper is read from "Response", not its property name; `ResponseData` reads "status", "message", "result" under their own names |
| WeatherModels.ResultWireKeysDistinct | AppLabTestiOS/Models/WeatherModels.swift:40-54 | distinct result fields have distinct wire keys |
| WeatherModels.RenamedResultKeys | AppLabTestiOS/Models/WeatherModels.swift:40-54 | exactly weatherIcon, feelsLike, humidity, windDirection, windSpeed and windSpeedUnit are read from a key other than their name |
| Networking.ErrorDescription | AppLabTestiOS/Managers/NetworkManager.swift:96-109 | never nil; for `apiError` it is the message verbatim |
| Networking.LocalizedDescription | AppLabTestiOS/Managers/NetworkManager.swift:107 | for a NetworkError it is its errorDescription (LocalizedError bridging), so an apiError gives its message; a foundation fault gives its own description |
| Networking.ErrorDescriptionTable | AppLabTestiOS/Managers/NetworkManager.swift:96-109 | fixed localized texts for invalidURL, invalidResponse, decodingError; the message for apiError, also when wrapped in unknown; a foundation fault's own description |
| Networking.FetchAsync | AppLabTestiOS/Managers/NetworkManager.swift:21-48 | never throws a bare apiError, nor unknown around a decoding error; it throws a non-NetworkError only for a transport fault after the URL parsed |
| Networking.FetchWithCompletion | AppLabTestiOS/Managers/NetworkManager.swift:51-85 | fails with unknown exactly when the URL parsed and the task reported an error, which it then wraps |
| Networking.InvalidUrlFailsFirst | AppLabTestiOS/Managers/NetworkManager.swift:22-55 | an unparsable URL fails both variants with invalidURL, whatever the session and decoder would give |
| Networking.AsyncRejectsBadStatus | AppLabTestiOS/Managers/NetworkManager.swift:28-31 | a non-HTTP reply or a status other than 200 is invalidResponse, and the decoder does not matter |
| Networking.AsyncTransportFaultEscapes | AppLabTestiOS/Managers/NetworkManager.swift:26 | a session fault is thrown as it is, not as a NetworkError |
| Networking.AsyncClassifiesPayload | AppLabTestiOS/Managers/NetworkManager.swift:33-47 | status 200 with a decode failure is decodingError; with status false it is unknown(apiError(message)) |
| Networking.CompletionCheckOrder | AppLabTestiOS/Managers/NetworkManager.swift:59-82 | task error first (unknown), then missing data or non-200 (invalidResponse), then decode failure (decodingError), then status false (apiError), else success |
| Networking.SuccessOnlyOnTrueStatus | AppLabTestiOS/Managers/NetworkManager.swift:33-82 | each variant succeeds iff the URL parsed, the reply is a 200, it decodes and status is true; it then returns the decoded result unchanged |
| Networking.VariantsAgreeUpToApiErrorWrapping | AppLabTestiOS/Managers/NetworkManager.swift:21-85 | on the same delivered reply the variants agree, except that the async one wraps apiError in unknown; the description is the same either way |
| WeatherPresentation.ErrorMessageFor | AppLabTestiOS/ViewModels/WeatherViewModel.swift:53-57 | always a message: a NetworkError's errorDescription, and the "data_error" text for any other error |
| WeatherPresentation.ViewState.BeginLoad | AppLabTestiOS/ViewModels/WeatherViewModel.swift:27-30 | loading, no error, no message, data unchanged |
| WeatherPresentation.ViewState.HandleError | AppLabTestiOS/ViewModels/WeatherViewModel.swift:49-58 | not loading, error set, message as for the error; data kept |
| WeatherPresentation.ViewState.FinishLoad | AppLabTestiOS/ViewModels/WeatherViewModel.swift:32-40 | a result becomes the data and stops loading, leaving the error fields; a thrown error goes to handleError |
| WeatherPresentation.ViewState.ClearError | AppLabTestiOS/ViewModels/WeatherViewModel.swift:61-64 | no error and no message; loading flag and data unchanged |
| WeatherPresentation.ViewState.FormattedDate | AppLabTestiOS/ViewModels/WeatherViewModel.swift:67-82 | "" without data; the formatted timestamp when dateTime is numeric; dateTime verbatim otherwise |
| WeatherPresentation.StepKeepsConsistent | AppLabTestiOS/ViewModels/WeatherViewModel.swift:27-64 | each step keeps hasError ⇔ errorMessage ≠ nil and ¬(isLoading ∧ hasError) |
| WeatherPresentation.RunKeepsConsistent | AppLabTestiOS/ViewModels/WeatherViewModel.swift:27-64 | any sequence of loads, completions and clearError calls keeps both invariants |
| WeatherPresentation.DataIsNeverCleared | AppLabTestiOS/ViewModels/WeatherViewModel.swift:27-64 | once data is present, no sequence of steps removes it |
| WeatherPresentation.InitStartsLoading | AppLabTestiOS/ViewModels/WeatherViewModel.swift:14-30 | a fresh view model is loading, with no error and no data |
| WeatherPresentation.OverlappingLoads | AppLabTestiOS/ViewModels/WeatherViewModel.swift:27-46 | a second load in flight is not refused; the last success wins the data; an earlier failure leaves hasError beside the fresh data |
| WeatherPresentation.RunTwoLoads | AppLabTestiOS/ViewModels/WeatherViewModel.swift:44-46 | two loads in a row act as two begin steps, with nothing merged |
| WeatherPresentation.ApiErrorShowsServerMessage | AppLabTestiOS/ViewModels/WeatherViewModel.swift:53-54 | a status-false payload fetched asynchronously shows the server's message |
| WeatherPresentation.TransportFaultShowsDataError | AppLabTestiOS/ViewModels/WeatherViewModel.swift:53-57 | a transport fault shows the "data_error" text |
| WeatherPresentation.WeatherViewModel.constructor | AppLabTestiOS/ViewModels/WeatherViewModel.swift:22-24 | the state begun from the fields' initial values, and consistent |
| WeatherPresentation.WeatherViewModel.LoadWeatherData | AppLabTestiOS/ViewModels/WeatherViewModel.swift:27-31 | the new state is the begin step of the old one |
| WeatherPresentation.WeatherViewModel.RefreshWeatherData | AppLabTestiOS/ViewModels/WeatherViewModel.swift:44-46 | the same as LoadWeatherData |
| WeatherPresentation.WeatherViewModel.FinishLoad | AppLabTestiOS/ViewModels/WeatherViewModel.swift:32-40 | the new state is the finish step of the old one |
| WeatherPresentation.WeatherViewModel.HandleError | AppLabTestiOS/ViewModels/WeatherViewModel.swift:49-58 | the new state is the handleError step of the old one |
| WeatherPresentation.WeatherViewModel.ClearError | AppLabTestiOS/ViewModels/WeatherViewModel.swift:61-64 | the new state is the clearError step of the old one |
| WeatherPresentation.WeatherViewModel.HasWeatherData | AppLabTestiOS/ViewModels/WeatherViewModel.swift:85-87 | true iff data is present |
| Navigation.MenuItem.RawValue | AppLabTestiOS/Managers/NavigationManager.swift:20-32 | the raw value (and id) is a non-empty title starting with a capital letter |
| Navigation.MenuItem.Destination | AppLabTestiOS/Managers/NavigationManager.swift:59-70 | home, weatherNews and settings are each the destination of exactly one item: dashboard, weatherNews and settings |
| Navigation.MenuItem.IsNavigable | AppLabTestiOS/Managers/NavigationManager.swift:72-74 | navigable exactly for dashboard, weatherNews and settings |
| Navigation.MenuItem.LocalizedKey | AppLabTestiOS/Managers/NavigationManager.swift:34-57 | every key starts with "menu_" |
| Navigation.MenuItemKeysDistinct | AppLabTestiOS/Managers/NavigationManager.swift:20-57 | distinct items have distinct raw values (ids) and localization keys |
| Navigation.AllMenuItems | AppLabTestiOS/Managers/NavigationManager.swift:20-30 | ten distinct items |
| Navigation.AllMenuItemsComplete | AppLabTestiOS/Managers/NavigationManager.swift:20-30 | every item is among them |
| Navigation.ItemFor | AppLabTestiOS/Managers/NavigationManager.swift:89-99 | the item selected for a destination is the one whose destination it is |
| Navigation.DestinationTable | AppLabTestiOS/Managers/NavigationManager.swift:59-74 | dashboard→home, weatherNews→weatherNews, settings→settings, others none; navigable iff among those three |
| Navigation.ThreeNavigableItems | AppLabTestiOS/Managers/NavigationManager.swift:59-74 | exactly three items are navigable |
| Navigation.NavState.NavigateTo | AppLabTestiOS/Managers/NavigationManager.swift:88-101 | home empties the stack; other destinations push exactly themselves; the matching item is selected and the menu closed |
| Navigation.NavState.NavigateToItem | AppLabTestiOS/Managers/NavigationManager.swift:104-110 | the item is selected and the menu closed; a non-navigable item leaves the stack unchanged |
| Navigation.NavState.OpenMenu | AppLabTestiOS/Managers/NavigationManager.swift:113-117 | menu open; stack and selection unchanged |
| Navigation.NavState.CloseMenu | AppLabTestiOS/Managers/NavigationManager.swift:120-124 | menu closed; stack and selection unchanged |
| Navigation.NavState.ToggleMenu | AppLabTestiOS/Managers/NavigationManager.swift:127-133 | the flag is negated; nothing else changes |
| Navigation.NavState.PopToRoot | AppLabTestiOS/Managers/NavigationManager.swift:136-139 | the stack is emptied and dashboard selected; the menu flag is untouched |
| Navigation.NavState.GoBack | AppLabTestiOS/Managers/NavigationManager.swift:142-146 | removes exactly the last destination; nothing happens on an empty stack |
| Navigation.ToggleMenuTwiceIsIdentity | AppLabTestiOS/Managers/NavigationManager.swift:127-133 | toggling twice is the identity |
| Navigation.GoBackUndoesPush | AppLabTestiOS/Managers/NavigationManager.swift:93-146 | going back after pushing a destination restores the stack |
| Navigation.DashboardResetsStack | AppLabTestiOS/Managers/NavigationManager.swift:104-110 | selecting dashboard from any state gives the empty stack, dashboard selected, menu closed |
| Navigation.OpStaysOffHome | AppLabTestiOS/Managers/NavigationManager.swift:88-146 | no operation puts home on the stack |
| Navigation.RunStaysOffHome | AppLabTestiOS/Managers/NavigationManager.swift:88-146 | no sequence of operations puts home on the stack |
| Navigation.NavigationManager.constructor | AppLabTestiOS/Managers/NavigationManager.swift:81-85 | dashboard selected, empty stack, menu closed |
| Navigation.NavigationManager.NavigateTo | AppLabTestiOS/Managers/NavigationManager.swift:88-101 | the new state is NavState.NavigateTo of the old one |
| Navigation.NavigationManager.NavigateToItem | AppLabTestiOS/Managers/NavigationManager.swift:104-110 | the new state is NavState.NavigateToItem of the old one |
| Navigation.NavigationManager.OpenMenu | AppLabTestiOS/Managers/NavigationManager.swift:113-117 | the new state is NavState.OpenMenu of the old one |
| Navigation.NavigationManager.CloseMenu | AppLabTestiOS/Managers/NavigationManager.swift:120-124 | the new state is NavState.CloseMenu of the old one |
| Navigation.NavigationManager.ToggleMenu | AppLabTestiOS/Managers/NavigationManager.swift:127-133 | the new state is NavState.ToggleMenu of the old one |
| Navigation.NavigationManager.PopToRoot | AppLabTestiOS/Managers/NavigationManager.swift:136-139 | the new state is NavState.PopToRoot of the old one |
| Navigation.NavigationManager.GoBack | AppLabTestiOS/Managers/NavigationManager.swift:142-146 | the new state is NavState.GoBack of the old one |
| Localization.SupportedLanguage.RawValue | AppLabTestiOS/Managers/LocalizationManager.swift:13-15 | "en" exactly for English and "ar" exactly for Arabic |
| Localization.SupportedLanguage.DisplayName | AppLabTestiOS/Managers/LocalizationManager.swift:17-24 | "English" exactly for English |
| Localization.SupportedLanguage.FontName | AppLabTestiOS/Managers/LocalizationManager.swift:26-33 | "Cairo" exactly for Arabic |
| Localization.SupportedLanguage.IsRTL | AppLabTestiOS/Managers/LocalizationManager.swift:35-37 | right-to-left exactly for the language whose raw value is "ar" |
| Localization.SupportedLanguage.LogoImageName | AppLabTestiOS/Managers/LocalizationManager.swift:39-46 | the logo asset is "logo_" followed by the raw value |
| Localization.SupportedLanguage.FromRawValue | AppLabTestiOS/Managers/LocalizationManager.swift:13-15 | succeeds exactly for "en" and "ar", with the language of that raw value |
| Localization.SupportedLanguage.Toggled | AppLabTestiOS/Managers/LocalizationManager.swift:89-96 | always the other language |
| Localization.RawValueRoundTrip | AppLabTestiOS/Managers/LocalizationManager.swift:13-15 | parsing a language's raw value gives that language |
| Localization.ToggleLanguageTwiceIsIdentity | AppLabTestiOS/Managers/LocalizationManager.swift:89-96 | toggling twice is the identity |
| Localization.RightToLeftIffArabic | AppLabTestiOS/Managers/LocalizationManager.swift:35-37 | right-to-left layout iff Arabic |
| Localization.LanguageTable | AppLabTestiOS/Managers/LocalizationManager.swift:17-46 | the English and Arabic rows of display name, font and logo; the two rows differ |
| Localization.RestoredLanguage | AppLabTestiOS/Managers/LocalizationManager.swift:55-61 | the stored language if the stored text is a raw value, English otherwise |
| Localization.SavedLanguageIsRestored | AppLabTestiOS/Managers/LocalizationManager.swift:55-67 | what switchLanguage stores is what the next init restores |
| Localization.LocalizationManager.constructor | AppLabTestiOS/Managers/LocalizationManager.swift:55-61 | the current language is restored from the stored preference |
| Localization.LocalizationManager.SwitchLanguage | AppLabTestiOS/Managers/LocalizationManager.swift:64-67 | the current language is l, and "selectedLanguage" now holds its raw value; other keys are kept |
| Localization.LocalizationManager.ToggleLanguage | AppLabTestiOS/Managers/LocalizationManager.swift:89-96 | the current language is the other one, and it is stored |
| Localization.LocalizationManager.LayoutDirection | AppLabTestiOS/Managers/LocalizationManager.swift:79-81 | right-to-left iff the current language is Arabic |
| Menu.ExactlyOneSelected | AppLabTestiOS/ViewModels/MenuViewModel.swift:45-47 | isSelected answers true for exactly one of the menu's items, the selected one |
| Menu.MenuViewModel.constructor | AppLabTestiOS/ViewModels/MenuViewModel.swift:14-23 | all ten items in order; the selection is copied from the navigation manager |
| Menu.MenuViewModel.SelectMenuItem | AppLabTestiOS/ViewModels/MenuViewModel.swift:26-29 | the item is selected here and in the navigation manager, whose state steps by NavigateToItem; the menu is closed; afterwards isSelected holds for that item alone |
| Menu.MenuViewModel.IsSelected | AppLabTestiOS/ViewModels/MenuViewModel.swift:45-47 | the selection test; its partners are ExactlyOneSelected (one item of the menu at a time) and SelectMenuItem (the chosen item afterwards) |
| Menu.MenuViewModel.CloseMenu | AppLabTestiOS/ViewModels/MenuViewModel.swift:55-57 | only the navigation manager's menu flag is cleared |
| Menu.MenuViewModel.ToggleLanguage | AppLabTestiOS/ViewModels/MenuViewModel.swift:60-77 | afterwards the display name, logo and layout direction are those of the other language, and the store's "selectedLanguage" holds its raw value, other keys kept |
| Menu.MenuViewModel.CurrentLanguageDisplayName | AppLabTestiOS/ViewModels/MenuViewModel.swift:65-67 | the Arabic display name exactly when the layout is right-to-left |
| Menu.MenuViewModel.CurrentLanguageLogo | AppLabTestiOS/ViewModels/MenuViewModel.swift:70-72 | the logo named after the current language's stored raw value |
| Menu.MenuViewModel.LayoutDirection | AppLabTestiOS/ViewModels/MenuViewModel.swift:75-77 | right-to-left exactly when the current language is Arabic |

## Left out

- SwiftUI views, animation helpers and the device-size helper: layout, rendering, floating-point sizing and timers. This includes the loading > error > content precedence of the home screen.
- `URLSession`, `Task`, `DispatchQueue.main.async` and `@MainActor`. Overlapping fetches appear only as arbitrary interleavings of begin and finish steps.
- `JSONDecoder`/`Codable` decoding. It is a function parameter; only the key tables are modelled.
- `print` logging, and the share sheets (`shareApp`; `shareWeatherNews` in the news view).
- `formattedWindSpeed` and `capitalizedWeather`. Their text comes from `Double`'s description and `String.capitalized`, whose rules are library-defined.
- `localizedString(for:)`, `.localized`, `localizedTitle(for:)` and `font(size:weight:)`. These are bundle lookups and font construction; a lookup appears only as a `string -> string` parameter.
- The weather news view's sample data and the `id` of menu items beyond their raw values.
- The `cancellables` set of the weather view model, which is never used.
- WeatherModels.Truncate: does not model the trap of `Int(Double)` on NaN, infinities or values outside the 64-bit range; temperatures are finite reals.
- WeatherModels.Uppercased: upper-cases ASCII letters only. Swift's full Unicode case mapping can send other characters to table keys (U+017F "ſ" upper-cases to "S"); that is not modelled.
- WeatherPresentation.ViewState.FormattedDate: `Double(String)` and `DateFormatter` with `.full` style are parameters, so the date text itself is not modelled.
- Navigation.NavigationManager: SwiftUI's `NavigationStack` also pops the path when the user swipes back; only this code's own changes to the path are modelled.
- Menu.MenuViewModel: `selectedItem` is copied from the navigation manager only at `init`, with no observer. Later changes made directly on the navigation manager (such as `popToRoot`) are not reflected, and the model keeps that.
