# FarmAssist dashboard — a Dafny model

FarmAssist is a React dashboard for farmers. This project models the parts of it that make decisions:

- **Recommendation engine.** The analytics view turns one six-sensor reading into three pieces of advice: watering, fertilizer and weather risk. Each comes from an ordered cascade of strict threshold tests.
- **Simulated sensor feed.** Every tick, each sensor drifts by a random step and is clamped to its range.
- **Irrigation motor panel.** A soil-moisture rule advises on, off or hold. A toggle shows a busy state until a one-second timer applies it.
- **Farm registration form.** Its handlers edit a flat field map and a crop list. An image picker checks size, then type. `validateForm` reports the first failed check.
- **Account registration page and login/sign-up dialog.** Each has password checks and payload shaping. The registration page also updates a nested `location` group.
- **Crop price card.** It validates the shape of the server's price data and rewords fetch errors. It keeps the loading, refreshing, offline and retry state.
- **Market price page.** Its search is case-insensitive, and each entry shows a trend badge.
- **Weather page.** The 3-hourly forecast is grouped into one entry per calendar day, at most seven. A blank city is never searched.
- **Weather client helpers.** One picks a background picture for a condition; the other builds an icon URL.
- **Application shell.** It holds the current page and the auth dialog. A guard keeps signed-out users on the home page. It also decides what is drawn for each page name, and when the navbar shows.

One Dafny module models each source file:

| module | file |
|---|---|
| `Analytics` | `analytics.dfy` |
| `Motor` | `motor.dfy` |
| `FarmRegister` | `farm_register.dfy` |
| `AuthRegister` | `register.dfy` |
| `AuthModal` | `modal.dfy` |
| `PriceCard` | `price_card.dfy` |
| `MarketPrice` | `market_price.dfy` |
| `Weather` (grouping) and `WeatherPage` (search state) | `weather.dfy`, `weather_page.dfy` |
| `WeatherApi` | `weather_api.dfy` |
| `App` | `app.dfy` |

Shared modules:

- `Wrappers`: `Option` and a map lookup.
- `Text`: the JavaScript string operations the code uses — `trim`, `includes`, `startsWith`, `split`, ASCII `toLowerCase`/`toUpperCase`, `Number(s)` and integer-to-text.
- `Seqs`: `Array.prototype.filter` and the order-preserving sub-list relation.
- `AuthContext`: the outcome of a `login`/`register` call.

Modelling conventions:

- Sensor readings and prices are `real`.
- JavaScript objects that handlers update with `[name]: value` are `map`s.
- React state is a `class` whose methods are the handlers.
- An `async` handler is split where it awaits. The first method returns what would be sent. A second method takes the answer as a parameter.
- Timers, randomness, the network and the session store are parameters of the model.

In the watering cascade, 30 ≤ moisture < 40 is caught by `water_soon`, so `optimal` covers exactly 40–70 (`Analytics.ActionBands`).

## Model

| member | source | states |
|---|---|---|
| `Analytics.Watering` | src/components/Analytics.jsx:60-91 | moisture < 30 gives `water_now`/high/0.94. 30 ≤ m < 40 gives `water_soon`/medium/0.87. m > 70 gives `reduce_water`/medium/0.91. 40–70 gives `optimal`/low with no confidence. The action is always in the watering set. |
| `Analytics.Fertilizer` | src/components/Analytics.jsx:94-128 | pH < 6 gives `add_lime`/high/0.89. pH > 7.3 gives `add_sulfur`/medium/0.86. Healthy pH with moisture > 40 and temperature > 25 gives `fertilize_now`/low/0.92. Otherwise `optimal` with no confidence. Nutrient advice appears exactly on triggered records. |
| `Analytics.Weather` | src/components/Analytics.jsx:131-165 | T > 35 gives `heat_stress`/high/0.95. T < 18 gives `cold_protection`/medium/0.88. 25 < T ≤ 35 with humidity > 80 gives `disease_risk`/medium/0.84. Otherwise `favorable` with no confidence. A forecast note appears exactly on triggered records. |
| `Analytics.Recommend` | src/components/Analytics.jsx:58-172 | There is exactly one record per category, each with an action from that category's fixed set. |
| `Analytics.CategoryInputs` | src/components/Analytics.jsx:58-171 | Watering depends only on soil moisture. Weather depends only on temperature and humidity. Fertilizer depends only on pH, moisture and temperature. |
| `Analytics.SevereRulesTakePrecedence` | src/components/Analytics.jsx:101-155 | pH < 6 gives `add_lime` whatever moisture and temperature are. T > 35 gives `heat_stress` whatever the humidity. |
| `Analytics.ActionBands` | src/components/Analytics.jsx:60-165 | Each action holds exactly on its band of inputs, in both directions. |
| `Analytics.ConfidenceIffNotDefault` | src/components/Analytics.jsx:58-171 | A record carries a confidence iff its action is not the category default. Untriggered records equal the default record. |
| `Analytics.WateringUrgencyMonotone` | src/components/Analytics.jsx:67-91 | Below the waterlogging threshold, drier soil never gets a lower watering priority. |
| `Analytics.ThresholdBoundaries` | src/components/Analytics.jsx:67-156 | The comparisons are strict, so each threshold value falls into the milder band. Watering: moisture 30 gives `water_soon`, and 40 and 70 give `optimal`. Fertilizer: pH 6.0 and 7.3 count as healthy, and at a healthy pH, moisture 40 or temperature 25 gives `optimal`. Weather: 18 °C and 25 °C are favorable; so are 35 °C with humidity ≤ 80, and humidity 80 at any temperature from 18 to 35 °C. |
| `Analytics.SampleReadings` | src/components/Analytics.jsx:58-171 | On a hot day (36 °C, moisture 50, pH 6.5) the advice is heat stress, optimal watering and fertilize now. On a cool humid day (20 °C, humidity 85, moisture 25, pH 5.8) it is water now, add lime and favorable weather. |
| `Analytics.InitialRecommendationsAreStale` | src/components/Analytics.jsx:5-34 | The default records shown before the first evaluation differ from what the initial reading yields (`fertilize_now`). |
| `Analytics.PriorityColor` | src/components/Analytics.jsx:174-180 | The card class is `border-<hue>-500 bg-<hue>-50`, with hue red, yellow or green for high, medium or low. |
| `Analytics.PriorityBadge` | src/components/Analytics.jsx:182-188 | The badge class is `bg-<hue>-500`, using the same hue as the card. |
| `Analytics.StylingDistinguishesPriorities` | src/components/Analytics.jsx:174-188 | Different priorities get different card and badge classes. |
| `Analytics.Clamp` | src/components/Analytics.jsx:40-44 | `max(lo, min(hi, x))` lies in [lo, hi] and is x whenever x already does. |
| `Analytics.NextReading` | src/components/Analytics.jsx:39-46 | For every draw, the next reading is in range: T in [15,40], humidity in [30,90], moisture in [20,80], pH in [5.5,7.5], light in [10000,80000], battery ≥ 20. The battery never rises from a level ≥ 20, and drops by exactly 0.1 from a level ≥ 20.1. |
| `Analytics.ClampStep` | src/components/Analytics.jsx:40-44 | Clamping a stepped value never moves it further than the raw step. |
| `Analytics.TickStepBounded` | src/components/Analytics.jsx:39-46 | With draws in [0,1), one tick moves T by ≤ 1, humidity by ≤ 1.5, moisture by ≤ 2, pH by ≤ 0.1 and light by ≤ 2500. |
| `Analytics.AnalyticsPanel.constructor` | src/components/Analytics.jsx:5-34 | Starts from the initial reading (28, 65, 45, 6.8, 45000, 85) and the three default records. |
| `Analytics.AnalyticsPanel.Tick` | src/components/Analytics.jsx:38-47 | Replaces the reading by `NextReading` of the old one. Keeps the feed's range invariant. Leaves the records alone. |
| `Analytics.AnalyticsPanel.GenerateRecommendations` | src/components/Analytics.jsx:53-56 | Replaces the records with `Recommend` of the current reading. |
| `Motor.EffectiveMoisture` | src/components/Motor.jsx:26 | A missing reading or a reading of 0 becomes 15. Any other reading is kept. |
| `Motor.Recommendation` | src/components/Motor.jsx:58-62 | `on` iff m < 40, `off` iff m > 80, `hold` iff 40 ≤ m ≤ 80, each with its message. The rule is total. |
| `Motor.FalsyReadingRecommendsOn` | src/components/Motor.jsx:26-59 | A missing reading, or a reading of 0, recommends `on`. |
| `Motor.ButtonsOfferTheOtherState` | src/components/Motor.jsx:87-98 | During a toggle both buttons are disabled. Otherwise exactly one is enabled, and it requests the state the motor is not in. |
| `Motor.MotorControl.constructor` | src/components/Motor.jsx:31-32 | The motor starts off and idle, with no timer pending. |
| `Motor.MotorControl.HandleMotorToggle` | src/components/Motor.jsx:34-41 | Sets loading and schedules the requested action. The status is unchanged until the timer fires. |
| `Motor.MotorControl.TimerFires` | src/components/Motor.jsx:39-41 | The oldest scheduled action becomes the status, and loading is cleared. |
| `Motor.StartThenComplete` | src/components/Motor.jsx:34-98 | Pressing the enabled Start button and letting its timer fire leaves the motor on and idle. Now only Stop is enabled. |
| `Motor.VoiceCommandsOverlap` | src/components/Motor.jsx:34-41 | Two quick toggles: after the first timer fires, the panel shows idle although a change is still pending. |
| `FarmRegister.SetCropField` | src/components/FarmRegister.jsx:47-49 | Writing `name`, `variety` or `plantingDate` changes only that field of the crop. |
| `FarmRegister.Validate` | src/components/FarmRegister.jsx:131-155 | Each error occurs iff its check is the first that fails, in this order: blank name, missing area or area < 0.1 (NaN passes), missing lat or lng, no crop with a non-blank name. No error iff all four pass. |
| `FarmRegister.NoValidCropsIffAllBlank` | src/components/FarmRegister.jsx:148-149 | No crop survives the name filter iff every crop name is blank. |
| `FarmRegister.SubmittedCrops` | src/components/FarmRegister.jsx:180-181 | The crops sent are exactly those with a non-blank name, with every copy of each kept, as an order-preserving sub-list. |
| `FarmRegister.ValidatedFormSendsNamedCrops` | src/components/FarmRegister.jsx:148-181 | A form that validates sends at least one crop, and every crop it sends has a name. |
| `FarmRegister.NaNAreaPasses` | src/components/FarmRegister.jsx:137 | An area that is not a number (`"abc"`) passes the area check. |
| `FarmRegister.RemoveAt` | src/components/FarmRegister.jsx:68 | For an index in range, the result is the list without that position, others in order. Any other index leaves the list unchanged. |
| `FarmRegister.ImageError` | src/components/FarmRegister.jsx:106-117 | A file over 5·1024·1024 bytes gets the size error, checked before the type. Then a type not starting with `image/` gets the type error. No error iff both checks pass. |
| `FarmRegister.FarmForm.constructor` | src/components/FarmRegister.jsx:19-33 | The initial fields, one empty crop, no image, no error. |
| `FarmRegister.FarmForm.HandleChange` | src/components/FarmRegister.jsx:43-57 | A `crop_<field>` input changes only that field of crop `index`. Any other input sets only its own top-level field. Both clear the error. |
| `FarmRegister.FarmForm.HandleAddCrop` | src/components/FarmRegister.jsx:59-64 | Appends exactly one empty crop and keeps the earlier crops. |
| `FarmRegister.FarmForm.HandleRemoveCrop` | src/components/FarmRegister.jsx:66-71 | With more than one crop, removes exactly position `index`. With one crop nothing changes, so the list is never empty. |
| `FarmRegister.FarmForm.HandleImageUpload` | src/components/FarmRegister.jsx:103-123 | No file changes nothing. A rejected file sets its error and keeps the old image. An accepted file sets the image and preview and clears the error. |
| `FarmRegister.FarmForm.HandleRemoveImage` | src/components/FarmRegister.jsx:125-128 | Clears the image and the preview only. |
| `FarmRegister.FarmForm.ValidateForm` | src/components/FarmRegister.jsx:131-155 | Returns true iff `Validate` finds nothing. On failure, `error` holds the first failing check's message. |
| `AuthRegister.CheckSubmission` | src/components/auth/Register.jsx:62-75 | A password mismatch is checked first and reported as such. Then a length under 6 is rejected. Otherwise the payload is the form minus `confirmPassword`, every other field unchanged. |
| `AuthRegister.SixCharactersSuffice` | src/components/auth/Register.jsx:68-75 | A confirmed six-character password is accepted. The payload then has the password and no confirmation. |
| `AuthRegister.RegisterForm.constructor` | src/components/auth/Register.jsx:7-22 | The initial form, including the nested `location` group. |
| `AuthRegister.RegisterForm.HandleChange` | src/components/auth/Register.jsx:34-54 | A `location.<x>` input sets only location[x] and keeps the other location fields. Any other input sets only its own field. The error is cleared. |
| `AuthRegister.RegisterForm.BeginSubmit` | src/components/auth/Register.jsx:56-78 | A rejected form shows the message and sends nothing (no `register` call). An accepted form sends the payload and stays busy. |
| `AuthRegister.RegisterForm.FinishSubmit` | src/components/auth/Register.jsx:78-89 | Success navigates to `/dashboard`. Failure shows `result.message`. A thrown error shows the generic message. Loading always ends. |
| `AuthModal.PlanSubmission` | src/components/Modal.jsx:31-48 | A sign-up with differing passwords is rejected. A login sends exactly email and password. Anything else registers with exactly name, email, phone and password. |
| `AuthModal.SignupNeedsConfirmationEdit` | src/components/Modal.jsx:7-12 | A sign-up whose confirmation field was never edited (so absent) is always rejected. |
| `AuthModal.LoginSkipsConfirmation` | src/components/Modal.jsx:31-41 | A login never compares passwords: the confirmation field cannot change what is sent. |
| `AuthModal.RegisterKindSkipsConfirmation` | src/components/Modal.jsx:31-48 | The kind `register` (sent by src/components/Home.jsx:20) is not `signup`, so it registers without any password comparison. |
| `AuthModal.AuthDialog.constructor` | src/components/Modal.jsx:7-14 | The initial form has no `confirmpassword` key. |
| `AuthModal.AuthDialog.HandleChange` | src/components/Modal.jsx:18-24 | Sets only the named field and clears the error. |
| `AuthModal.AuthDialog.BeginSubmit` | src/components/Modal.jsx:26-49 | A rejected plan shows its message and sends nothing. Otherwise the planned request is sent. |
| `AuthModal.AuthDialog.FinishSubmit` | src/components/Modal.jsx:51-60 | Reports success iff the call succeeded. Failure shows its message. A thrown error shows the generic one. Loading always ends. |
| `PriceCard.ValidatePriceData` | src/components/PriceCard.jsx:44-58 | Accepts iff all of these hold: the data is an object with `stateAverage`, `priceRange`, `markets` and `unit`; the average is a non-negative number (0 and NaN pass); `min > max` is false (equal passes); `markets` is an array. Falsy data and missing fields are refused. A truthy primitive, or a null `priceRange`, throws. |
| `PriceCard.ZeroAverageAndEqualBoundsAccepted` | src/components/PriceCard.jsx:53-54 | An average of 0 with min = max is accepted. |
| `PriceCard.InvertedRangeRefused` | src/components/PriceCard.jsx:54 | min > max is refused. |
| `PriceCard.ClassifyError` | src/components/PriceCard.jsx:120-124 | "Failed to fetch" maps to the network message, with precedence. Otherwise "HTTP error" gets the `Server error: ` prefix. Otherwise the text is unchanged. |
| `PriceCard.ShownAsNetworkError` | src/components/PriceCard.jsx:120-124 | The shown text mentions "Network error" iff the raw text mentions "Failed to fetch" or "Network error". |
| `PriceCard.RetryDelayAsWritten` | src/components/PriceCard.jsx:129-134 | As written: a retry is scheduled iff retryCount < 3 and the raw message contains "Network error". The delay is 2000·(retryCount+1). |
| `PriceCard.RetryDelay` | src/components/PriceCard.jsx:126-134 | Corrected: the same cap and delay, tested on the text shown to the user. |
| `PriceCard.FetchFailureNotRetriedAsWritten` | src/components/PriceCard.jsx:120-134 | A browser fetch failure is shown as a network error, but as written it is never retried. The corrected rule retries it after 2 s. |
| `PriceCard.RetriedFailures` | src/components/PriceCard.jsx:120-134 | The corrected rule retries exactly fetch failures and reported network errors, while under the cap. It retries everything the written rule retries. |
| `PriceCard.RaisedMessage` | src/components/PriceCard.jsx:95-107 | What the request raises: `HTTP error! status: <n>` for a bad status. For a bad body, its message or the invalid-data default. A TypeError when validation throws. Nothing for accepted data, an abort or an unmount. |
| `PriceCard.PriceCardState.constructor` | src/components/PriceCard.jsx:8-15 | The card starts loading, with no data, no error and retryCount 0. |
| `PriceCard.PriceCardState.FetchPriceData` | src/components/PriceCard.jsx:60-142 | Once unmounted, nothing changes. A retry adds 1 to retryCount; a plain call resets it to 0. Offline: the offline error is set, loading and refreshing are cleared, no request is made. Accepted data is stored. Otherwise the classified error is shown, and the retry delay is computed from the count the calling closure sees (`seen`). |
| `PriceCard.PriceCardState.HandleRefresh` | src/components/PriceCard.jsx:144-148 | Does nothing while refreshing or loading. Otherwise it resets retryCount to 0 and sets the offline error when offline. Accepted data is stored. A raised error is shown classified, with its retry delay computed from the current count by the corrected network test. An abort or an unmount leaves the data and clears the error. |
| `PriceCard.RetriesNeverReachTheCap` | src/components/PriceCard.jsx:60-134 | Each timer calls the very function object that scheduled it, so every attempt of a retry chain tests the count the chain started from. With the corrected network test of the finding below, a chain of failed fetches started below 3 schedules another retry after every attempt, always with the first delay, while retryCount grows without bound. |
| `MarketPrice.MockPricesWellFormed` | src/components/MarketPrice.jsx:8-17 | All ids are distinct, and rangeMin ≤ price ≤ rangeMax for every entry. |
| `MarketPrice.FilterPrices` | src/components/MarketPrice.jsx:94-104 | An empty term returns the list unchanged. The result is never longer than the list. |
| `MarketPrice.SearchMembership` | src/components/MarketPrice.jsx:98-103 | A non-empty term keeps an entry iff its lowercased crop, state or market contains the lowercased term. |
| `MarketPrice.SearchResultsMention` | src/components/MarketPrice.jsx:99-103 | Every entry shown mentions the term. |
| `MarketPrice.SearchIsSubList` | src/components/MarketPrice.jsx:95-99 | The result is an order-preserving sub-list of the prices. |
| `MarketPrice.SearchIgnoresCase` | src/components/MarketPrice.jsx:98-102 | Terms with the same lowercase form give the same result. |
| `MarketPrice.SearchUpperCaseTerm` | src/components/MarketPrice.jsx:98-102 | Upper-casing the term changes nothing. |
| `MarketPrice.Trend` | src/components/MarketPrice.jsx:22-23 | `increasing` gives 📈 and `decreasing` gives 📉. Anything else is `stable` with ➡️. |
| `MarketPrice.TrendClassIsKnown` | src/components/MarketPrice.jsx:22 | The class is always one of the three, and equals the trend when the trend is one of them. |
| `Weather.FirstPerDay` | src/components/Weather.jsx:177-183 | The reference grouping, the first item of each day in list order, is never longer than the list. |
| `Weather.FirstOfDayInPrefix` | src/components/Weather.jsx:178-181 | Whether an item is the first of its day does not depend on later items. |
| `Weather.FirstPerDayDays` | src/components/Weather.jsx:177-183 | No two entries share a day, and the entries cover exactly the days of the list. |
| `Weather.FirstPerDayEntriesAreFirst` | src/components/Weather.jsx:178-183 | Every entry is the first list item of its day. Later items of that day are ignored. |
| `Weather.FirstPerDayIsSubList` | src/components/Weather.jsx:177-185 | The entries appear in list order, the order of each day's first occurrence. |
| `Weather.Take` | src/components/Weather.jsx:185 | `slice(0, 7)`: the first min(n, length) items. |
| `Weather.DailyForecast` | src/components/Weather.jsx:174-186 | No forecast gives []. Otherwise the dictionary walk yields exactly the first seven entries of `FirstPerDay`. |
| `Weather.DailyForecastShape` | src/components/Weather.jsx:174-186 | At most 7 entries. Pairwise different days. Each entry is the first of its day, in list order. |
| `Weather.DailyForecastCoversShortLists` | src/components/Weather.jsx:177-185 | If the list spans at most seven days, every day gets an entry. |
| `WeatherPage.WeatherPage.constructor` | src/components/Weather.jsx:6-11 | Empty city, no data, not loading, no error. |
| `WeatherPage.WeatherPage.HandleCityInput` | src/components/Weather.jsx:206 | Sets the city only. |
| `WeatherPage.WeatherPage.SearchWeather` | src/components/Weather.jsx:107-116 | A whitespace-only or empty city sets "Please enter a city name" and fetches nothing. Any other city is requested, with loading set and the error cleared. |
| `WeatherPage.WeatherPage.FinishSearch` | src/components/Weather.jsx:117-136 | Results are stored. On failure the data is cleared and the message shown. Loading ends either way. |
| `Text.TrimEmptyIffBlank` | src/components/Weather.jsx:109 | `s.trim()` is empty iff every character of `s` is whitespace. This is the reading of `!x.trim()` used by both forms' guards. |
| `WeatherApi.BackgroundQuery` | src/utils/weatherAPI.js:79-92 | Clear→sunny, Clouds→cloudy, Thunderstorm→thunderstorm, Snow→snow. Rain and Drizzle→rain. Mist, Fog and Haze→fog. The result is `weather` iff the condition is unlisted. |
| `WeatherApi.WeatherBackground` | src/utils/weatherAPI.js:93 | The URL is the picture service prefix, then the theme, then `,landscape,nature`. |
| `WeatherApi.BackgroundCarriesTheme` | src/utils/weatherAPI.js:92-93 | The theme is read back exactly from the URL. Two URLs are equal iff their themes are. |
| `WeatherApi.SharedBackgrounds` | src/utils/weatherAPI.js:83-89 | Rain and Drizzle share a picture; so do Mist, Fog and Haze. |
| `WeatherApi.WeatherIcon` | src/utils/weatherAPI.js:74-76 | The URL is `https://openweathermap.org/img/wn/` + code + `@` + size + `.png`, with size `2x` when omitted. |
| `WeatherApi.IconUrlCarriesCode` | src/utils/weatherAPI.js:74-76 | An omitted size equals `2x`. The icon code is read back from the URL whenever it has no `@`. |
| `App.RenderPage` | src/pages/App.jsx:95-120 | Each known page name draws its own screen. Every other name draws Home, and only those. |
| `App.OnePagePerScreen` | src/pages/App.jsx:96-118 | The dispatch is one-to-one on known names: each screen other than Home is drawn by exactly one name. |
| `App.PlantHealthLinksDrawHome` | src/pages/App.jsx:107-118 | `plantHealth` (sent by src/components/Home.jsx:76) and `PlantHealth` (sent by src/components/Navbar.jsx:53) both draw Home. Only `planHealth` draws the plant-health screen. |
| `App.Render` | src/pages/App.jsx:59-153 | Loading draws the loading screen. Signed out on login or register, only that page is drawn. Signed out elsewhere except home, Home plus the dialog is drawn. Otherwise the dispatched screen, with the navbar iff signed in and not on home/login/register. |
| `App.SignedOutSeesOnlyPublicScreens` | src/pages/App.jsx:69-125 | A signed-out visitor only ever sees Home, Login or Register, and never the navbar. |
| `App.AppState.constructor` | src/pages/App.jsx:21-23 | Starts on home with the dialog closed and kind `login`. |
| `App.AppState.NavigateTo` | src/pages/App.jsx:34-42 | Signed out, asking for a page other than home opens the login dialog and keeps the page. Otherwise it sets the page and leaves the dialog alone. |
| `App.AppState.OpenModal` | src/pages/App.jsx:44-47 | Sets the kind and opens the dialog. |
| `App.AppState.CloseModal` | src/pages/App.jsx:49-51 | Changes only `isModalOpen`. |
| `App.AppState.HandleAuthSuccess` | src/pages/App.jsx:53-57 | Closes the dialog and goes to the dashboard. |
| `App.AppState.RedirectEffect` | src/pages/App.jsx:28-32 | Signed out and not loading, every page falls back to home. Otherwise nothing changes. |
| `App.SignedOutNavigation` | src/pages/App.jsx:28-42 | A signed-out click followed by the redirect leaves the visitor on Home with no navbar. For any page other than home, the login dialog is open. |

## Left out

- HTTP is not modelled. This covers `src/services/api.js`, the fetch functions of `src/utils/weatherAPI.js` and the price request with its `AbortController`. Each request's outcome is a parameter instead: `FetchOutcome`, `SearchOutcome`, `AuthResult`.
- The session logic of `src/context/AuthContext.jsx` (local storage, token checks) is not part of this model. `isAuthenticated` and `loading` are inputs of the `App` members.
- Timers and randomness are left out: `setInterval`, `setTimeout`, `Math.random`, speech output and geolocation. The random draws of a tick are the `Draw` parameter. Each timer's effect is a separate method (`Motor.MotorControl.TimerFires`). The price card's retry is returned as a delay, not run.
- Number formatting is not modelled: `toFixed`, `toLocaleString`, `Math.round` and dates. Analytics messages with a number are templates whose digits stay abstract. The calendar day of a forecast timestamp is the uninterpreted `dayOf` parameter.
- Rendering is not modelled: JSX, CSS, icons, and the footer and markup of every page. `App.Render` keeps only which screen, navbar and dialog are drawn.
- The online/offline listeners and the `onRefresh` callback of the price card are not modelled. `isOnline` is set when the card is created.
- `PriceCard.PriceCardState.FetchPriceData` is weaker than the source in two ways. The TypeError's message (engine wording) is an opaque constant. The method uses the corrected network test of the finding below. The count its retry test reads is the parameter `seen`; a timer's retry passes the same value as the call that scheduled it, which `PriceCard.RetriesNeverReachTheCap` follows.
- `PriceCard.PriceCardState.HandleRefresh` inherits the corrected network test from the fetch it runs. A refresh whose fetch fails with "Failed to fetch" schedules a retry; the source schedules none.
- `PriceCard.ValidatePriceData` is weaker where a range bound is an object or an array. The model reads such a bound as NaN, so `min > max` is false and the data pass. JavaScript first turns the bound into text (`[object Object]`, or the items joined by commas). The results differ in two cases, where JavaScript can refuse data the model accepts. (1) The other bound is a string, an object or an array: JavaScript compares the two texts, so `{}` against `"Z"` or `[1,2]` against `[1,1]` is refused. (2) The bound is an array of zero or one item and the other bound is a number, a boolean or null: JavaScript reads the text as a number (`[]` as 0, `[5]` as 5).
- `Text.ToNumber` reads unsigned and signed decimals with an optional fraction. Other `Number` forms (exponents, hex, `Infinity`) read as NaN.
- `MarketPrice.FilterPrices` folds case for A–Z only, not for all of Unicode.
- `AuthRegister.CheckSubmission` is weaker than JavaScript's `length`: it counts characters, not UTF-16 code units.
- `FarmRegister.FarmForm.HandleChange` requires a valid crop index for a `crop_` input and no input named `crops`; the page never sends either. An unknown crop field name is ignored, where JavaScript would add the property. The in-place write to the shared crop object is modelled as a copy.
- `AuthRegister.RegisterForm.HandleChange` requires that no input is named `location`; the page has none.
- `WeatherApi.BackgroundQuery` does not model inherited object keys such as `toString`, which JavaScript would find in `weatherMap`.
- Sensor readings that are NaN are not modelled: the readings are `real`.

## Findings

| source | as written | input that shows it | evidently intended | confidence | as-written member | corrected member |
|---|---|---|---|---|---|---|
| src/components/PriceCard.jsx:120-134 | The auto-retry tests `err.message.includes('Network error')`, but a browser's fetch failure has the message "Failed to fetch". Only the text shown to the user is rewritten to "Network error: …". | A fetch rejected with "Failed to fetch" at retryCount 0: the error is shown as a network error, and no retry is scheduled. | Retry what is shown as a network error (test `errorMessage`), keeping the count test and the delay 2000·(retryCount+1) as they are. | not executed | `PriceCard.RetryDelayAsWritten` (`PriceCard.FetchFailureNotRetriedAsWritten`) | `PriceCard.RetryDelay` (`PriceCard.RetriedFailures`) |
