# Texecom app screens — a Dafny model

This project models the logic of six screens of a React Native mobile app that
controls intruder-alarm panels through a cloud backend. Each screen is one
module. The screens are objects whose methods update their fields, so each is a
Dafny `class`. Each method's contract gives the whole new state. Where a method
ends in one of several ways, the contract relates the ending to a pure
specification function, and lemmas prove what the app promises about that
function.

- `Js` — the small part of JavaScript the screens rely on:
  - values: numbers, strings, booleans and objects, with truthiness;
  - `Array.prototype.findIndex`;
  - decimal text and `parseInt`.
- `Login` (`LoginScreen.js`):
  - filling the account in from a deep link;
  - pre-filling the PIN remembered for the last panel;
  - the biometric gate and the progress-cancel flag;
  - the login attempt. It connects, requests a token, fetches the panel list,
    chooses a panel, checks the user code, updates the remembered PIN, then
    runs user sync, set-code, ping, and the upgrade diversion or the panel login.
- `ModeEdit` (`ModeEditScreen.js`): a mode has 15 recipe slots, 10 effect slots
  and a 25-entry 0/1 recipe mask. The model covers:
  - mounting a mode for editing or creating a new one;
  - lighting recipe slots from the mask, selecting and removing slots;
  - the "+" slot and which slots are disabled;
  - saving.
- `Timers` (`TimersScreen.js`):
  - the recipe-timer table, where an empty entry is recognised and a new timer
    takes the first empty entry;
  - fetching and deleting timers;
  - keeping at most one row swiped open.
- `ChooseState` (`RecipeCauseChooseStateScreen.js`): the on/off chooser of a
  recipe cause or effect. It edits the object in place, routes engineers to the
  pulse timer and device effects to the output mode, and pops the right number
  of screens.
- `Camera` (`CameraScreen.js`):
  - tab switching with one change handler per tab;
  - the recording-status poll;
  - the thumbnail URLs built from the clip list.
- `SystemDetails` (`SettingsSystemDetailsScreen.js`):
  - the version texts;
  - the timezone picker, whose list is fetched once and cached;
  - the timezone update.

Backend calls, storage and the clock are not performed. Each becomes a
parameter carrying the answer the call delivers. In Login, one `Backend` record
carries every answer an attempt receives. Navigation and callbacks become an
event log (ChooseState), a list of invoked handlers (Camera) or a returned
outcome. Alerts become returned outcomes or flags.

Where the code and the screen's documented behaviour disagree, the model
follows the code:

- With several panels sharing the stored id, the login attempt picks the LAST
  one. The panel search is a `map` that overwrites its choice at every match.
- An empty panel list opens the panel-selection screen. It is not an error.
- "Select Panel" (`force_select_panel`) opens the selection screen even for an
  account with a single panel.

## Model

| member | source | states |
|---|---|---|
| Js.FindIndex | ModeEditScreen.js:328-330 | `findIndex`: the least index whose entry satisfies the predicate, with every earlier entry failing it; -1 exactly when no entry satisfies it |
| Js.ParseIntOfDecimal | LoginScreen.js:535 | `parseInt` reads back every integer from its decimal text |
| Login.StoredTextMatchesNumber | LoginScreen.js:528-540 | a panel id written to storage and read back as text denotes the same panel as the number, both for the panel search (`parseInt`) and for the PIN store's key |
| Login.LastMatchIndex | LoginScreen.js:532-540 | the index of the last panel carrying the id, with no later match; -1 only when no panel carries it |
| Login.ParseStoredId | LoginScreen.js:535 | the stored panel id as `parseInt` reads it: no id gives nothing, a number is itself, text is parsed |
| Login.ChosenPanel | LoginScreen.js:528-540 | the only panel of a one-panel list; otherwise, with a stored id, the last panel whose id equals the parsed stored id; otherwise none |
| Login.ChosenPanelIsLastMatch | LoginScreen.js:528-540 | a one-panel list chooses its entry; otherwise a parsable stored id chooses the last panel with that id, and a match exists exactly when something is chosen; no id or an unparsable one chooses nothing |
| Login.ConnectOutcome | LoginScreen.js:608-721 | after the code check every ending concerns the chosen panel and counts as past the code check |
| Login.PrerequisitesGateTokenRequest | LoginScreen.js:403-426 | the token is requested exactly when there is a connection, a server, a username and a password; no connection always ends as "no connection" |
| Login.SelectionIsOpenedExactly | LoginScreen.js:513-562 | once a token is issued, the selection screen opens iff the list came back and either no panel was chosen or selection was forced; an empty list opens it; a forced one-panel account opens it; a missing list is "no panel list" |
| Login.StepsRunInOrder | LoginScreen.js:565-721 | a chosen-panel ending is reached only without forced selection; it is past the code check iff the code is valid; sync fails only for `panel_appsync === 0`; set-code only after the sync, the ping only after set-code; the upgrade screen iff the ping needs it and the user may upgrade |
| Login.AttemptOutcome | LoginScreen.js:396-746 | how an attempt ends: no connection, then no server, then missing credentials, then no token, each stop the attempt in that order; with a token the panel list and the panel steps decide |
| Login.PinsAfterCodeCheck | LoginScreen.js:575-605 | the panel/user entry holds the code when remember-me or fingerprint is on, and is removed otherwise; every other entry is unchanged |
| Login.KeptPinIsFoundAgain | LoginScreen.js:239-283 | a PIN kept at login is what the next prefill finds under the stored id read back as text; a dropped (or empty) PIN is not found |
| Login.Reset | LoginScreen.js:384-393 | `onLoginFinished` re-enables the login button and hides activity and progress, keeping the codes |
| Login.StateAfterAttempt | LoginScreen.js:396-746 | an attempt keeps the form's and the stored code; the login button stays disabled exactly when the attempt hands over to the selection screen or the panel login |
| Login.AttemptStateIgnoresActivity | LoginScreen.js:396-400 | an attempt first shows the activity indicator, so whether it was already showing does not change the state the attempt leaves |
| Login.AttemptStateIgnoresModal | LoginScreen.js:748-773 | an attempt leaves the biometric modal as it found it, so hiding it before or after the attempt comes to the same |
| Login.BiometricAttemptState | LoginScreen.js:748-773 | whether or not the Android modal was shown, a successful biometric login leaves the attempt's state from the stored code with the modal hidden: the form holds the stored code, and the button is enabled again iff the attempt finishes itself |
| Login.LoginScreen.constructor | LoginScreen.js:103-130 | the initial state: empty credentials, an empty panel list, no stored panel id |
| Login.LoginScreen.DidMount | LoginScreen.js:347-352 | the screen is mounted |
| Login.LoginScreen.WillUnmount | LoginScreen.js:354-358 | the screen is no longer mounted |
| Login.LoginScreen.LinkingHandler | LoginScreen.js:188-207 | the account is filled in iff the link carries a non-empty e-mail and password; the server becomes `https://` plus the broker, and the form's code becomes the link's user code; otherwise nothing changes |
| Login.LoginScreen.LoadStoredPin | LoginScreen.js:239-283 | with no stored panel nothing changes; with no PIN the form's code is cleared; with a PIN, remember-me fills the form, and fingerprint sets the flag and the stored code |
| Login.LoginScreen.StartBiometricGate | LoginScreen.js:330-344 | records hardware and enrolment; biometric login starts iff both are present, fingerprint is enabled and a code is stored |
| Login.LoginScreen.UpdateProgress | LoginScreen.js:364-373 | sets the progress and title and reports the cancel flag |
| Login.LoginScreen.OnProgressCancelled | LoginScreen.js:375-378 | raises the cancel flag |
| Login.LoginScreen.OnLoginFinished | LoginScreen.js:384-393 | the state becomes `Reset` of the old one and the cancel flag is cleared |
| Login.LoginScreen.Conclude | LoginScreen.js:608-643 | a finishing ending resets the screen (the sync failure hides the progress first) and clears the cancel flag; a hand-over ending leaves both as they were |
| Login.LoginScreen.OnPanelSelected | LoginScreen.js:551-554 | the selection screen's callback stores the chosen panel's id and pre-fills from the PIN remembered for it: panel id 0 changes nothing, no PIN clears the form's code, and with a PIN remember-me fills the form while fingerprint sets the flag and the stored code |
| Login.LoginScreen.OnSelectPanelClosed | LoginScreen.js:557-562 | closing the selection screen finishes the attempt only while the login screen is mounted |
| Login.LoginScreen.FindPanel | LoginScreen.js:528-540 | the full scan over the list chooses exactly `ChosenPanel` |
| Login.LoginScreen.Login | LoginScreen.js:396-746 | the ending is `AttemptOutcome` of the fields, the code check and the backend answers; the state, cancel flag, panel list, dispatched user and PIN store are exactly those the ending implies |
| Login.LoginScreen.Authenticate | LoginScreen.js:471-746 | the same, from the token request on |
| Login.LoginScreen.ProcessPanelList | LoginScreen.js:513-562 | the panel list is stored; the ending is `ListOutcome`, with the state and PIN store it implies |
| Login.LoginScreen.LoginToPanel | LoginScreen.js:565-605 | an invalid code ends the attempt with the PIN store untouched; otherwise the store is updated as `PinsAfterCodeCheck` says and the backend steps follow |
| Login.LoginScreen.ConnectToPanel | LoginScreen.js:608-721 | the ending is `ConnectOutcome`, and the state is the one it implies |
| Login.LoginScreen.PressLogin | LoginScreen.js:892-916 | the button is disabled and an attempt runs; the button is enabled again iff the attempt finishes itself; the cancel flag, panel list, dispatched user and PIN store are those the attempt's ending implies |
| Login.LoginScreen.BiometricLogin | LoginScreen.js:760-767 | the stored code becomes the form's code and the misspelled key is written; the attempt that follows ends as `AttemptOutcome` of the stored code, leaving the state, cancel flag, panel list, user and PIN store that ending implies |
| Login.LoginScreen.FingerprintAuth | LoginScreen.js:748-773 | an attempt runs iff the biometric check succeeded, and then with the stored code as the form's code; the state it leaves is the attempt's state with the modal hidden, and the cancel flag, panel list, user and PIN store are those the attempt's ending implies; the modal is hidden either way; a failed check changes nothing else |
| Login.RetryAttempt | LoginScreen.js:396-746 | a second attempt's outcome depends only on the screen's fields and the new answers, not on what the first attempt left; after a first attempt that failed without leaving progress on show, the state is the one a single clean attempt would leave; the PIN store is too unless the first attempt passed the code check on another panel; the dispatched user and panel list are those the second attempt's token and list give |
| Login.RetryStateIsClean | LoginScreen.js:396-746 | a first attempt that hands over, or finishes without progress on show, leaves nothing that changes the state the next attempt produces |
| Login.RetryPinsAreClean | LoginScreen.js:575-605 | keeping or dropping a PIN is idempotent: a first attempt that stopped before the code check, or passed it on the second attempt's panel, leaves the PIN store as the second attempt alone would |
| ModeEdit.JsArray.Push | ModeEditScreen.js:148 | `push` appends one entry |
| ModeEdit.GetFirstEmpty | ModeEditScreen.js:324-330 | the first entry with no keys and no empty entry before it; -1 only when none is empty |
| ModeEdit.IsItemEmpty | ModeEditScreen.js:324-326 | an entry is empty iff it has no keys |
| ModeEdit.SlotIcon | ModeEditScreen.js:314-322 | the first empty slot shows the "+" icon; another slot shows its own icon if it has one, else the blank icon |
| ModeEdit.SlotDisabled | ModeEditScreen.js:346 | a slot is disabled iff it lies after the first empty one |
| ModeEdit.PressItem | ModeEditScreen.js:225-281 | a recipe slot opens the recipe list; an empty effect slot opens the arm-mode picker at slot 0 and the effect list elsewhere; a filled one opens the state editor, with removal offered for the slot just before the first empty one |
| ModeEdit.FirstEmptyIs | ModeEditScreen.js:328-330 | an empty entry with no empty entry before it is the first empty one |
| ModeEdit.CountOnes | ModeEditScreen.js:137 | the number of mask entries equal to 1 is at most the mask's length, and zero exactly when no entry is 1 |
| ModeEdit.LitRecipes | ModeEditScreen.js:196-208 | 15 slots, the first `count` lit and the rest `{}` |
| ModeEdit.LitRecipesFirstEmpty | ModeEditScreen.js:196-208 | after lighting, the "+" slot is slot `count` below 15; at 15 or more it is the first empty entry past the slots, if any |
| ModeEdit.RowRendering | ModeEditScreen.js:314-346 | a slot is enabled iff it is at or before the first empty one; an enabled slot is the "+" slot or a filled one; a full list disables every slot; the "+" slot shows the next icon and the others their own icon or the blank one |
| ModeEdit.EffectPressRule | ModeEditScreen.js:225-281 | an effect slot opens the state editor iff it is filled, the arm-mode picker iff it is the empty slot 0; removal is offered iff the slot is the last filled one before the first empty slot, never in a full list |
| ModeEdit.EnabledEffectPress | ModeEditScreen.js:225-281 | on an enabled effect slot, the "+" slot opens a picker and earlier slots open the state editor |
| ModeEdit.ModeEditScreen.constructor | ModeEditScreen.js:58-65 | no mode yet; the screen holds the module-level template |
| ModeEdit.ModeEditScreen.WillUnmount | ModeEditScreen.js:170-172 | the screen is marked unmounted |
| ModeEdit.ModeEditScreen.LightRecipes | ModeEditScreen.js:137-142 | the first 15 entries become `LitRecipes(count)` in place, and the rest are kept |
| ModeEdit.ModeEditScreen.WillMount | ModeEditScreen.js:113-168 | the unmounted flag is the one the fetch leaves; nothing else changes unless the effects fetch succeeded on a still-mounted screen, the passed mode's recipes and the template included; the template is untouched whenever the passed mode does not share its array; an existing mode takes the first 25 entries as its mask and has its slots lit from them in the passed array; a new mode, as written, shares the template's recipes array, which grows by 15 `{}`, with 10 fresh empty effects and 25 zeros as the mask |
| ModeEdit.ModeEditScreen.LoadExistingMode | ModeEditScreen.js:126-143 | the mask is the first 25 recipe entries; the same array's first 15 slots are lit by the count of ones |
| ModeEdit.ModeEditScreen.CreateNewMode | ModeEditScreen.js:144-161 | as written: the new mode shares the template's recipes array, which grows by 15 `{}`; the effects are 10 fresh `{}`; the mask is 25 zeros |
| ModeEdit.ModeEditScreen.CreateNewModeFresh | ModeEditScreen.js:36-43 | corrected: fresh arrays of 15 and 10 `{}`, both with the "+" at slot 0, and 25 zeros as the mask |
| ModeEdit.ModeEditScreen.OnChangeRecipes | ModeEditScreen.js:196-208 | the mask is stored and the recipe slots are lit by its count of ones, the rest kept; when the mode shares the template's array the template is rewritten the same way, and otherwise it is untouched |
| ModeEdit.ModeEditScreen.OnSelect | ModeEditScreen.js:211-216 | exactly one slot of the chosen type takes the choice |
| ModeEdit.ModeEditScreen.OnRemove | ModeEditScreen.js:219-223 | exactly one slot of the chosen type becomes `{}` |
| ModeEdit.ModeEditScreen.OnSave | ModeEditScreen.js:283-305 | saving is refused iff the first effect slot is empty; otherwise the mode is passed on with the mask as its recipes, marked new iff it was not being edited |
| ModeEdit.TemplateLeaksBetweenScreens | ModeEditScreen.js:36-43 | a second new mode, after a first one lit three recipes, has 30 recipe entries and its "+" at slot 3 with no recipe in its mask |
| Timers.FirstEmptyTimer | TimersScreen.js:87-104 | the first entry that `timerIsEmpty` accepts, with no empty one before it; -1 iff every entry is in use |
| Timers.TimerIsEmpty | TimersScreen.js:87-94 | a timer is empty iff its name is empty, its `from` has no keys, or its `from.hours` is 655 |
| Timers.RenderRow | TimersScreen.js:217-266 | an empty timer renders blank; another shows its name, or the placeholder for an empty name, with its description as subtitle when there is one |
| Timers.RowShowsOwnName | TimersScreen.js:217-266 | a row is blank iff its timer is empty; a shown row's title is the timer's own non-empty name, so the placeholder is never shown; the subtitle is shown iff there is a description |
| Timers.TimersScreen.constructor | TimersScreen.js:37-45 | an empty list, no open row, no swipe in progress so the list scrolls, adding enabled |
| Timers.TimersScreen.OnSwipeStart | TimersScreen.js:237 | a swipe is in progress and the list stops scrolling |
| Timers.TimersScreen.OnSwipeRelease | TimersScreen.js:238 | no swipe is in progress and the list scrolls again |
| Timers.SwipeLocksScroll | TimersScreen.js:237-238 | scrolling (TimersScreen.js:288) is off between a row's swipe start and release and on after it; the list and the open row are untouched |
| Timers.TimersScreen.BeginFetch | TimersScreen.js:57-63 | adding is disabled and the activity shown while the list is fetched |
| Timers.TimersScreen.CompleteFetch | TimersScreen.js:64-85 | the error alert iff there was no answer; the list is replaced only by an answer; adding is enabled again |
| Timers.TimersScreen.FetchTimerList | TimersScreen.js:57-85 | the same, for the whole fetch |
| Timers.TimersScreen.CreateTimer | TimersScreen.js:97-122 | ignored iff adding is disabled; "no spare timers" iff every entry is in use; otherwise the editor opens on the first empty entry |
| Timers.TimersScreen.DeleteTimer | TimersScreen.js:159-183 | the request names the entry by its 1-based number; a refetch follows iff the delete succeeded; only that refetch changes the list |
| Timers.TimersScreen.RecentreSwipeable | TimersScreen.js:186-196 | the open row, if any, is recentred, and no row is open |
| Timers.TimersScreen.HandleSwipeOpenRelease | TimersScreen.js:199-209 | the row becomes the one open row; a different open row is recentred first |
| Timers.TimersScreen.HandleSwipeCloseRelease | TimersScreen.js:210-211 | no row is open |
| Timers.OpenTwoRows | TimersScreen.js:199-209 | after opening two rows only the second is open, and the first was recentred iff it differs |
| ChooseState.SwitchOn | RecipeCauseChooseStateScreen.js:188 | the switch is on iff the toggle state is 0 |
| ChooseState.ToggleFor | RecipeCauseChooseStateScreen.js:187-191 | the switch stores 0 or 1, and the stored value reads back as the switch position |
| ChooseState.SwitchRoundTrip | RecipeCauseChooseStateScreen.js:187-191 | on a two-state object the switch position and the toggle state determine each other |
| ChooseState.Route | RecipeCauseChooseStateScreen.js:45-88 | submit opens the output-mode page for a device effect that is not the IP camera, else the pulse-timer page for an engineer editing a cause, else saves at once |
| ChooseState.RouteCases | RecipeCauseChooseStateScreen.js:45-88 | the output-mode page iff a device effect other than the IP camera; the pulse-timer page iff an engineer edits a cause; a cause never gets the output-mode page |
| ChooseState.ChooseStateScreen.constructor | RecipeCauseChooseStateScreen.js:30-32 | the toggle state starts at 0 with no events |
| ChooseState.ChooseStateScreen.WillMount | RecipeCauseChooseStateScreen.js:134-152 | only a two-state object sets the toggle; an effect with a mode is on iff that mode is an "on" mode; otherwise the object's stored state is used |
| ChooseState.ChooseStateScreen.OnSwitchChange | RecipeCauseChooseStateScreen.js:187-191 | the toggle state follows the switch |
| ChooseState.ChooseStateScreen.GoBack | RecipeCauseChooseStateScreen.js:34-43 | pops `n` screens, one more when opened from the tab navigator |
| ChooseState.ChooseStateScreen.SaveAndReturn | RecipeCauseChooseStateScreen.js:114-122 | pops, then reports the edited object with its type and index |
| ChooseState.ChooseStateScreen.OnSubmit | RecipeCauseChooseStateScreen.js:45-88 | opens the routed page leaving the object untouched; or stores the toggle state (a cause's pulse timer reset to 0) and saves, popping one screen |
| ChooseState.ChooseStateScreen.OnChangeCausePulseTimer | RecipeCauseChooseStateScreen.js:90-100 | stores the pulse timer and the toggle state, then returns past both pages |
| ChooseState.ChooseStateScreen.OnChangeEffectOutputMode | RecipeCauseChooseStateScreen.js:102-112 | stores value and duration in the effect's own mode object, then returns past both pages |
| ChooseState.ChooseStateScreen.OnRemove | RecipeCauseChooseStateScreen.js:124-132 | pops one screen, then reports the removal of the object's type and index |
| Camera.ThumbnailUrl | CameraScreen.js:151-171 | a clip's thumbnail URL: the server's thumbnail path, the clip id, then the timestamp and the token |
| Camera.StillRecording | CameraScreen.js:109-115 | the camera counts as still recording unless its status says `recording` is `false` |
| Camera.ThumbnailUrlNamesClip | CameraScreen.js:151-171 | a thumbnail URL starts with the server's thumbnail path, and the numeric clip id can be read back right after it |
| Camera.ThumbnailUrlsDiffer | CameraScreen.js:151-171 | different numeric clips get different URLs |
| Camera.UrlsAfter | CameraScreen.js:157-170 | the loop over the clips: each clip with an id writes its URL at its own index, in order; a clip without one is skipped |
| Camera.UrlsAfterSlots | CameraScreen.js:157-170 | after the loop, each clip with an id has its URL in its slot, all with one timestamp, and every other index is as it was, present or a hole |
| Camera.CameraScreen.constructor | CameraScreen.js:36-51 | the Live tab, no handlers, no slots, no clips |
| Camera.CameraScreen.ChangeTab | CameraScreen.js:202-220 | an empty name is ignored; otherwise the tab becomes current, and the tab's change handler is called iff it is a different tab with a handler |
| Camera.CameraScreen.RegisterChangeHandler | CameraScreen.js:235-238 | replaces the tab's change handler and keeps the others |
| Camera.CameraScreen.RegisterAnimationHandler | CameraScreen.js:241-244 | replaces the tab's animation handler and keeps the others |
| Camera.CameraScreen.ResetSlots | CameraScreen.js:123-125 | slots 0..7 become `null`, and every other index is kept |
| Camera.CameraScreen.WillMount | CameraScreen.js:60-71 | slots 0..7 are `null` after mount, and every other index is kept, present or a hole |
| Camera.CameraScreen.WillUnmount | CameraScreen.js:73-79 | the screen is marked unmounted |
| Camera.CameraScreen.GenerateUrls | CameraScreen.js:151-171 | the slots become `UrlsAfter` of the old slots and all the clips |
| Camera.CameraScreen.FetchVideoClips | CameraScreen.js:93-149 | no status: nothing changes; still recording: poll again iff mounted; otherwise slots 0..7 are cleared, and a list loaded on a mounted screen fills each clip's slot with its URL and completes the conversion; every index that is neither one of slots 0..7 nor written by a clip is kept, present or a hole; an error list keeps the clips |
| SystemDetails.VersionText | SettingsSystemDetailsScreen.js:97-103 | a version is shown iff there is one, as the text without its first character |
| SystemDetails.ShownVersion | SettingsSystemDetailsScreen.js:97-103 | the stored SmartCom version is drawn as `VersionText` of it when it is text; nothing is drawn for none; `slice` throws for a number, boolean or object |
| SystemDetails.PingVersionRendering | SettingsSystemDetailsScreen.js:56-67 | after a ping answer, a SmartCom line is drawn iff the answer carries a version under `details`, and drawing it throws iff that version is not text |
| SystemDetails.SmartcomVersion | SettingsSystemDetailsScreen.js:56-67 | a "result" answer whose details carry a version gives exactly that version; a version is taken from nothing else; an answer that is missing or not "result" gives none |
| SystemDetails.SystemDetailsScreen.constructor | SettingsSystemDetailsScreen.js:44-52 | the panel's version, no list, the picker hidden |
| SystemDetails.SystemDetailsScreen.OnPingStatus | SettingsSystemDetailsScreen.js:56-67 | the version becomes the one the answer gives, except when reading it throws |
| SystemDetails.SystemDetailsScreen.RenderTimezonePicker | SettingsSystemDetailsScreen.js:143-154 | a section header with key 0, then one item per timezone in list order; every item's key is its position |
| SystemDetails.SystemDetailsScreen.EnableTimezonePicker | SettingsSystemDetailsScreen.js:186-212 | the list is fetched iff enabling with no cached list; the picker is shown or hidden only once a list is at hand |
| SystemDetails.SystemDetailsScreen.TimezonePickerCallback | SettingsSystemDetailsScreen.js:105-141 | anything but "Cancel" is sent; the panel's timezone changes only on a truthy answer; the picker is hidden |
| SystemDetails.EnableTwice | SettingsSystemDetailsScreen.js:186-212 | once a list is cached, enabling again fetches nothing and shows the picker |

## Left out

- The tutorial screen and every screen, component and helper outside the six
  files are not modelled. Backend, storage, navigation, the store's reducers,
  translation and styling code are among them.
- Rendering is modelled only where it decides behaviour: row contents, slot icons
  and disabled flags, the picker's data list and the switch. Layout, images and
  themes are left out.
- Concurrency is left out. Every `await` is modelled as completing before the next
  step, in program order. Interleavings of a running attempt or fetch with user
  input or unmounting are not captured, apart from the `_unmounted` checks the
  code makes.
- `AppTitle` translation is the identity. "Cancel", "Panel Timezone" and
  "Unnamed Timer" are compared as English text.
- Login.ParseStoredId: `parseInt` is modelled on decimal text, stopping at the
  first non-digit as JavaScript does. A `0x` hexadecimal prefix is not handled.
  Only space, tab, line feed and carriage return are skipped as leading white
  space. JavaScript also skips vertical tab, form feed, no-break space, U+FEFF and
  the Unicode space separators.
- Login.KeptPinIsFoundAgain: assumes the PIN store, which is not part of this
  model, files a panel's code under the panel id's text. It must then give the same
  key for the numeric `panel_id` used when the code is kept or deleted and for the
  stored `last_panel_id` text used at prefill.
- Login: credentials that JavaScript holds as `null`, and a missing user code in a
  deep link, are modelled as the empty string.
- Login: `validatePanelUserCode` is an uninterpreted function of the code.
  `codeStorageEnabled` is a set of enabled combinations.
- Login: the progress callbacks of the user sync, and a cancellation raised while
  it runs, are not modelled. The sync is one answer, succeeded or failed.
- Login: the panel login's own callbacks (`backendPanelLogin`) and the upgrade
  screen are not part of this model. The attempt ends there with the
  `PanelLogin` or `SmartcomUpgrade` outcome.
- Login: the activity flag set inside the status call is not modelled separately.
- Login: numeric fields such as `panel_appsync` and `access_firmware_upgrade` are
  unbounded integers.
- ModeEdit.ModeEditScreen.LoadExistingMode: requires the mode's `recipes` array to
  hold at least 25 entries. Saved modes carry the 25-entry mask there. A shorter
  array would make the source read `undefined` mask entries, which is not modelled.
- ModeEdit: `state.effects` is stored as fetched. The recipe and effect pickers
  that use it are not part of this model.
- ChooseState.ChooseStateScreen.OnChangeEffectOutputMode: requires the effect to
  have a `mode` object. The source would throw a TypeError writing into an
  undefined `mode`, and that path is not modelled.
- ChooseState: `isOnState` of the output-mode table is an uninterpreted function.
  The output-mode and pulse-timer pages are recorded only as navigation events.
- Camera: `fetchIndices` (image prefetch), the animation handlers' invocation,
  `changeCamera`, and error reporting for a clip without an id are left out. The
  500 ms repoll is reported as `Repoll(scheduled)` and not run.
- Camera: the clock is the parameter `now`.
- Timers: `editTimer` and `_handleClick` only navigate, and are not modelled.
- SystemDetails: the Expo update check and the software-update action are left
  out. They are platform calls with no state of this screen behind them.

## Findings

| source | as written | input that shows it | evidently intended | confidence | as-written member | corrected member |
|---|---|---|---|---|---|---|
| ModeEditScreen.js:36-43, 144-149 | a new mode is `{...empty_mode}`, which shares the module-level `recipes` array, and 15 `{}` are pushed onto that shared array every time | two new modes in a row, the first lighting 3 recipes: the second mode has 30 recipe entries, with slots 0-2 lit and the "+" at slot 3, although its mask includes nothing | every new mode gets its own 15 empty recipe slots, with the "+" at slot 0 | not executed | ModeEdit.ModeEditScreen.CreateNewMode, ModeEdit.TemplateLeaksBetweenScreens | ModeEdit.ModeEditScreen.CreateNewModeFresh |
