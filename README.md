# Trivix page script — a verified model

The Trivix site runs one browser script, `test-trivix-main/main.js`. It wires
event handlers for a small music page. The handlers are a mock search box, a
`formatTime` helper, a track list with a play/pause toggle, simulated wallet
and form buttons, toast notifications and navigation links. This project
models the parts of that script that carry logic. It states what they
promise and proves it in Dafny. The DOM is replaced by explicit state. Timers
are replaced by explicit events.

Modules, one per component of the script:

- `Common` (`common.dfy`): `Option`, button labels, the notification
  severities with their icon and colour maps, and the notification container
  as a class that logs the toasts it is given.
- `Search` (`search.dfy`): the fixed three-record catalogue. It holds ASCII
  case folding, the `includes` substring test and the order-preserving filter.
  It also holds the rendering decision and the results panel. The debounced
  input handler is a pure transition function with `Input(q)` and `Fire`
  events. It is also a `SearchBox` class whose methods are proved against
  that function.
- `Clock` (`clock.dfy`): `formatTime` on whole non-negative seconds. Its
  minutes are written with `toString` and its seconds with `padStart(2, '0')`.
  The module also has a parser, proved to be its exact inverse.
- `Player` (`player.dfy`): the track buttons, of which at most one carries the
  highlight. There is a pure `Click` and a `TrackList` class over an
  `array<bool>` of button highlights. The module also holds the play/pause
  toggle.
- `Wallet` (`wallet.dfy`): the phase machine idle → connecting → connected,
  with failed → idle. The `WalletButton` class has one method per event. The
  method for a resolved connection also writes to the navigation bar's button,
  which may be the same object.
- `Forms` (`forms.dfy`): the submit button's ready → processing → succeeded →
  ready cycle, as a pure machine and as a class proved against it.
- `Navigation` (`navigation.dfy`): the current-page link highlight, which is a
  loop over the links. It also holds the mobile-menu toggle and the NFT
  buy/bid toasts.

Three behaviours of the script that the model keeps:

- A query shorter than two characters removes the results panel when the
  debounce timer fires. The length test sits inside the timer callback
  (main.js:303-309).
- A wallet button that has connected stays disabled. The success path never
  sets `disabled` back to false (main.js:146-157).
- The failure path of the wallet button is unreachable while
  `showNotification` does not throw, because the awaited delay always
  resolves (main.js:143). It is modelled as its own event, `Reject`, that
  something must trigger explicitly. `Wallet.NoRejectNoFailure` proves that
  without that event the failed phase is never entered.

## Model

| member | source | states |
|---|---|---|
| `Common.IconName` | test-trivix-main/main.js:385 | the nested conditional of the icon: success, error and warning get their own icon and every other severity falls through to "info"; `Common.StylesDistinguishSeverities` proves the four icons distinct |
| `Common.Colors` | test-trivix-main/main.js:374-381 | the colour classes of a toast, background, border and text over the severity's hue; `Common.StylesDistinguishSeverities` proves the four entries distinct |
| `Common.StylesDistinguishSeverities` | test-trivix-main/main.js:374-385 | two different severities get different icons and different colour classes |
| `Common.Notifier.Show` | test-trivix-main/main.js:370-390 | showing a notification appends exactly that message and severity to the container, newest last |
| `Search.Lower` | test-trivix-main/main.js:324-325 | ASCII `toLowerCase`, character by character; `Search.LowerIsFolded` proves it keeps the length, leaves no upper-case letter and is idempotent |
| `Search.Includes` | test-trivix-main/main.js:324-325 | the `includes` test, as "prefix or included in the tail"; `Search.IncludesIffOccurs` proves it equal to "occurs at some position" |
| `Search.IncludesIffOccurs` | test-trivix-main/main.js:324-325 | the `includes` test holds exactly when the query occurs at some position of the string |
| `Search.Filter` | test-trivix-main/main.js:323-326 | a record is kept iff it is in the input and matches; the result is an order-preserving subsequence, no longer than the input, and duplicate-free when the input is |
| `Search.CatalogueDistinct` | test-trivix-main/main.js:319-322 | the three catalogue records are pairwise different |
| `Search.Results` | test-trivix-main/main.js:314-326 | `performSearch`: the catalogue filtered by the query; `Search.ResultsMembership`, `Search.ResultsShape` and `Search.BeatFindsTwo` state what it returns |
| `Search.ResultsMembership` | test-trivix-main/main.js:314-326 | a catalogue record is in the results iff its lower-cased title or lower-cased artist contains the lower-cased query |
| `Search.ResultsShape` | test-trivix-main/main.js:319-326 | the results are a subsequence of the catalogue in its order, have no duplicates and number at most 3 |
| `Search.FilterIgnoresQueryCase` | test-trivix-main/main.js:323-326 | two queries that lower-case to the same string keep the same records |
| `Search.LowerIsFolded` | test-trivix-main/main.js:324-325 | lower-casing keeps the length, leaves no upper-case ASCII letter and is idempotent |
| `Search.BeatFindsTwo` | test-trivix-main/main.js:319-326 | the query "beat" returns exactly the first two catalogue records, in catalogue order |
| `Search.Render` | test-trivix-main/main.js:342-351 | the empty result list renders the "No results found" message; any other list renders one row per result, in order, titled by that result and detailed "artist • kind" |
| `Search.Settle` | test-trivix-main/main.js:303-309 | what a timer expiry does with its captured query: search and show for 2 or more characters, remove the panel otherwise; `Search.FireGate` states both directions |
| `Search.Step` | test-trivix-main/main.js:298-309 | one event of the debounced handler: an input replaces the pending query, an expiry settles it; `Search.InputsKeepLastQuery` and `Search.LastQueryWins` prove the debounce over any burst |
| `Search.FireGate` | test-trivix-main/main.js:303-309 | when the timer fires, the panel is removed iff the query is shorter than 2 characters; otherwise it shows the rendered search results |
| `Search.InputsKeepLastQuery` | test-trivix-main/main.js:298-310 | a burst of keystrokes leaves the panel untouched, with only the last query pending |
| `Search.LastQueryWins` | test-trivix-main/main.js:298-310 | after inputs q1..qn and one timer expiry, the panel is what qn alone settles to, whatever was shown before, and nothing stays pending |
| `Search.SearchBox.OnInput` | test-trivix-main/main.js:298-303 | a keystroke replaces the pending query with its own and leaves the panel alone |
| `Search.SearchBox.OnTimer` | test-trivix-main/main.js:303-309 | a timer expiry settles the pending query and leaves nothing pending |
| `Clock.Decimal` | test-trivix-main/main.js:412 | `toString` of a whole number is a canonical decimal numeral that denotes it |
| `Clock.PadStart2` | test-trivix-main/main.js:412 | `padStart(2, '0')` leaves strings of 2 or more characters alone; shorter ones get zeros in front up to length 2 |
| `Clock.SecondsField` | test-trivix-main/main.js:411-412 | a seconds value below 60, padded, is exactly two digits that denote it |
| `Clock.FormatTime` | test-trivix-main/main.js:409-413 | `formatTime` on whole seconds: minutes numeral, ':', padded seconds; its meaning is stated by `Clock.FormatTimeFields` and its round trip by `Clock.ParseFormatTime` and `Clock.FormatParseTime` |
| `Clock.FormatTimeFields` | test-trivix-main/main.js:409-413 | `formatTime(s)` is a canonical minutes numeral, ':', and a two-digit seconds field below 60, with minutes * 60 + seconds == s |
| `Clock.ParseFormatTime` | test-trivix-main/main.js:409-413 | reading a formatted time gives back the seconds it came from |
| `Clock.FormatParseTime` | test-trivix-main/main.js:409-413 | every string that reads as a time is the formatting of the value it reads as |
| `Clock.FormatTimeInjective` | test-trivix-main/main.js:409-413 | different numbers of seconds never format alike |
| `Player.Click` | test-trivix-main/main.js:113-117 | a click moves the highlight from the remembered button to the clicked one, which becomes remembered; other buttons are untouched and the single-marker invariant is kept |
| `Player.Clicks` | test-trivix-main/main.js:106-126 | after any non-empty sequence of clicks, starting where only the remembered button (or none) is highlighted, exactly the last-clicked button is highlighted |
| `Player.TrackList.Select` | test-trivix-main/main.js:107-121 | the click handler performs `Click` on the button array, highlights exactly button i, and shows track i's title and artist |
| `Player.PlayPause.Click` | test-trivix-main/main.js:66-76 | a click sends pause when playing and play otherwise, flips `isPlaying`, and leaves the icon offering the opposite action; without an audio element nothing changes |
| `Wallet.Next` | test-trivix-main/main.js:134-172 | the phase transitions of the handler: click from idle, resolve or reject from connecting, reset from failed, every other event ignored; `Wallet.ConnectedIsFinal` and `Wallet.NoRejectNoFailure` state what runs of it can reach |
| `Wallet.ConnectedIsFinal` | test-trivix-main/main.js:143-157 | no event leads a connected button out of the connected phase |
| `Wallet.NoRejectNoFailure` | test-trivix-main/main.js:143-165 | unless the delay rejects, the failed phase is never entered |
| `Wallet.WalletButton.OnClick` | test-trivix-main/main.js:139-140 | an enabled button becomes connecting, shows "Connecting..." and is disabled; a disabled one is unaffected |
| `Wallet.WalletButton.OnResolve` | test-trivix-main/main.js:143-157 | a connecting button becomes connected, green and still disabled, and shows "Connected"; the navigation button shows the address and turns green, and when it is the same button the address is what remains; exactly one success toast is emitted |
| `Wallet.WalletButton.OnReject` | test-trivix-main/main.js:159-165 | a connecting button becomes failed, red and still disabled, and shows "Failed"; exactly one error toast is emitted |
| `Wallet.WalletButton.OnResetTimer` | test-trivix-main/main.js:168-172 | a failed button returns to idle, shows "Connect Wallet", is enabled and carries neither green nor red classes |
| `Forms.Next` | test-trivix-main/main.js:217-246 | one event of the submit cycle: submit saves the label and disables, the first timer shows "Success!" in green, the second restores the saved label; `Forms.RunKeepsOriginalLabel` proves the invariant it keeps |
| `Forms.Emitted` | test-trivix-main/main.js:232-238 | the toasts of one event: one success toast when processing ends, none otherwise; `Forms.SubmissionCycle` proves a full cycle emits exactly one |
| `Forms.RunKeepsOriginalLabel` | test-trivix-main/main.js:226-246 | under any sequence of events the button stays consistent with its phase; whenever it is ready it shows its original label, is enabled and is not green |
| `Forms.SubmissionCycle` | test-trivix-main/main.js:226-246 | a submission from a ready button shows "Processing..." (disabled), then "Success!"; the whole cycle emits exactly one success toast and ends with the original label restored |
| `Forms.SubmitForm.OnSubmit` | test-trivix-main/main.js:226-229 | an enabled button saves its label, shows "Processing..." and is disabled |
| `Forms.SubmitForm.OnProcessed` | test-trivix-main/main.js:232-238 | a processing button shows "Success!", turns green and emits one success toast |
| `Forms.SubmitForm.OnResetTimer` | test-trivix-main/main.js:241-246 | a succeeded button shows the label saved at submission again, is enabled and loses the green classes |
| `Navigation.HighlightActive` | test-trivix-main/main.js:27-34 | afterwards a link is highlighted iff it was before or its href equals the current path exactly |
| `Navigation.MobileMenu.OnMenuClick` | test-trivix-main/main.js:20-24 | a click flips the menu's visibility |
| `Navigation.TradeMessage` | test-trivix-main/main.js:282-286 | the text of a trade toast, "Purchasing <title>..." or "Bidding on <title>..."; `Navigation.TradeMessageIdentifies` proves it determines the action and the title |
| `Navigation.TradeMessageIdentifies` | test-trivix-main/main.js:282-286 | a buy or bid toast determines both the button clicked and the card title |
| `Navigation.OnTradeClick` | test-trivix-main/main.js:275-288 | a buy or bid click emits exactly one info toast naming the card |

## Left out

- DOM construction and markup are not modelled: `innerHTML` templates, `createElement`, `appendChild` and `lucide.createIcons()`. Button contents are reduced to an icon name and a text.
- Wall-clock durations are not modelled: 300 ms, 1500 ms, 2000 ms, 3000 ms and 5000 ms. Every timer is an explicit event.
- The generic `debounce` and `throttle` utilities (main.js:415-438) are timer plumbing and are not modelled. The search box has its own debounce, which is modelled.
- The notification lifecycle is not modelled: slide in after 100 ms, slide out after 5 s, removal 300 ms later. `Common.Notifier` is the log of toasts emitted.
- Common.IconName: covers only the four named severities. For any other string, the script falls through to the "info" icon and looks up an undefined colour entry.
- The progress bar width, the volume and the parallax offset are left out. They are floating-point, and the progress divides by an unknown duration.
- Clock.FormatTimeFields: covers whole, non-negative seconds only. The script applies `formatTime` to fractional times and to a duration that may be NaN, and floors the parts. The script computes on IEEE doubles, so the model agrees with it only for seconds below 2^53: above that `Math.floor(seconds / 60)` can round, and from 1e21 on `toString` writes exponent notation. The media times passed at main.js:87 and main.js:93 stay far below that bound.
- Lower-casing is ASCII only; full Unicode `toLowerCase` is not modelled. Query lengths count Dafny characters, not UTF-16 code units.
- Search.SearchBox: each box holds its own panel. In the script, every search box shares the single `#search-results` container.
- The scroll-reveal observer, smooth scrolling, the NFT card click (a log line and a scale pulse) and the global error listener are browser effects without logic. So are performance logging, `console.log` and `FormData` collection.
- `form.reset()` is not modelled. It restores the fields' default values, and field contents are browser state.
- A form without a submit button is not modelled. Its handler fails on `submitButton.innerHTML`.
- Player.TrackList.constructor and Forms.SubmitForm.constructor: the page markup is assumed to start plain. No track button carries `text-green-400` at first; a button highlighted in the markup would stay highlighted after another click (only the remembered button is cleared, main.js:113-115), so the single-marker invariant would not hold. No submit button carries the green classes at first.
- The handlers assume one submit button per form and an enabled initial button. A disabled submit button blocks submission, as browsers do for implicit submission.
- Player.PlayPause.Click: the promise that `audio.play()` returns is not modelled, and neither is the audio element's own state.
- The wallet type read from `data-wallet-type` is never used by the script, so it is not modelled. The navigation button is passed to `OnResolve` explicitly, where the script finds it with `querySelector`.
- The notification container is created at start-up (main.js:362-368); here it is a constructor.
- Common.Notifier.Show: the severity is always given. The script's `showNotification` defaults it to 'info' when a caller omits it (main.js:370); no caller in the script omits it, but the function is exported at main.js:458.
- Forms.SubmissionCycle: the restored label, like `Forms.RunKeepsOriginalLabel`'s ready state, holds only while `showNotification` does not throw. The success toast is emitted inside the first timer (main.js:238) before the reset timer is scheduled (main.js:241); a throw there (an undefined `lucide`, main.js:405) would leave the button showing "Success!", green and disabled for good. That path is not modelled.
- Player.TrackList.Select: the page is assumed to have `#now-playing-title` and `#now-playing-artist`. Without them the handler throws after the highlight has already moved (main.js:113-117): a missing title element throws at main.js:120 and neither field changes, while a missing artist element throws at main.js:121 after the title has been set. Neither case is modelled.
- Wallet.ConnectedIsFinal: holds only when `showNotification` does not throw. A throw in the success path would run the catch block after "Connected" has been shown, showing "Failed" in red. With a missing `#notification-container` the throw comes from the append at main.js:390, so no success toast is added; with an undefined `lucide` it comes from main.js:405, after the success toast has been appended. In both cases the catch's own `showNotification` (main.js:165) would then throw before the reset timer at main.js:168 is set. That path is not modelled.
