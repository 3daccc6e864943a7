/** The login screen (LoginScreen.js): the deep-link credential fill, the stored-PIN
    prefill, the biometric gate, the progress-cancel flag, the attempt reset, and the
    login attempt itself, a strict sequence of steps with early exits. Every backend
    or storage call is replaced by the outcome it delivers (a `Backend` record), and
    `validatePanelUserCode` by an uninterpreted function fixed when the screen is made. */
module Login {
  import opened Js

  /** `last_panel_id`: null, the text read back from storage, or the number the
      panel-selection screen hands back in its callback. */
  datatype StoredId = NoId | IdText(text: string) | IdNumber(n: int)

  /** JavaScript truthiness of `last_panel_id` (`if (this.last_panel_id)`). */
  predicate IsSet(id: StoredId)
  {
    match id
    case NoId => false
    case IdText(t) => t != ""
    case IdNumber(n) => n != 0
  }

  /** `parseInt(this.last_panel_id)`; `None` is `NaN`, which equals no panel id. */
  function ParseStoredId(id: StoredId): Option<int>
  {
    match id
    case NoId => None
    case IdText(t) => ParseInt(t)
    case IdNumber(n) => Some(n)
  }

  /** The text under which the PIN store files a panel: the id as a template string shows it. */
  function PanelKey(id: StoredId): string
  {
    match id
    case NoId => "null"
    case IdText(t) => t
    case IdNumber(n) => IntToDecimal(n)
  }

  /** A panel id read back from storage as text denotes the same panel, for the panel
      search and for the PIN store, as the number it was written from. */
  lemma StoredTextMatchesNumber(n: int)
    ensures ParseStoredId(IdText(IntToDecimal(n))) == ParseStoredId(IdNumber(n)) == Some(n)
    ensures PanelKey(IdText(IntToDecimal(n))) == PanelKey(IdNumber(n))
  {
    ParseIntOfDecimal(n);
  }

  datatype PanelUser = PanelUser(accessFirmwareUpgrade: int)

  /** One entry of the account's panel list (the fields the attempt inspects). */
  datatype Panel = Panel(panelId: int, appSync: int, panelUser: Option<PanelUser>)

  /** The index of the LAST panel whose id is `id`, or -1: the `map` over the panel
      list overwrites its choice at every match. */
  function LastMatchIndex(panels: seq<Panel>, id: int): (r: int)
    ensures -1 <= r < |panels|
    ensures r >= 0 ==> panels[r].panelId == id && forall j :: r < j < |panels| ==> panels[j].panelId != id
    ensures r == -1 ==> forall j :: 0 <= j < |panels| ==> panels[j].panelId != id
  {
    if |panels| == 0 then -1
    else if panels[|panels| - 1].panelId == id then |panels| - 1
    else LastMatchIndex(panels[..|panels| - 1], id)
  }

  /** The panel an attempt logs in to without asking the user, before
      `force_select_panel` is considered. */
  function ChosenPanel(panels: seq<Panel>, lastId: StoredId): Option<Panel>
  {
    if |panels| == 1 then Some(panels[0])
    else if lastId.NoId? then None
    else
      match ParseStoredId(lastId)
      case None => None
      case Some(id) =>
        var k := LastMatchIndex(panels, id);
        if k < 0 then None else Some(panels[k])
  }

  /** A one-panel list chooses its only entry. Otherwise a stored id that parses to a
      number chooses the last entry with that panel id, if there is one; with no
      stored id, an unparsable one, or no match, nothing is chosen. */
  lemma ChosenPanelIsLastMatch(panels: seq<Panel>, lastId: StoredId)
    ensures |panels| == 1 ==> ChosenPanel(panels, lastId) == Some(panels[0])
    ensures |panels| != 1 && (lastId.NoId? || ParseStoredId(lastId).None?) ==> ChosenPanel(panels, lastId).None?
    ensures |panels| != 1 && !lastId.NoId? && ParseStoredId(lastId).Some? ==>
      var id := ParseStoredId(lastId).value;
      var r := ChosenPanel(panels, lastId);
      (r.Some? <==> exists k :: 0 <= k < |panels| && panels[k].panelId == id) &&
      (r.Some? ==> exists k :: 0 <= k < |panels| && r.value == panels[k] && panels[k].panelId == id &&
                              forall j :: k < j < |panels| ==> panels[j].panelId != id)
  {
    if |panels| != 1 && !lastId.NoId? && ParseStoredId(lastId).Some? {
      var id := ParseStoredId(lastId).value;
      var k := LastMatchIndex(panels, id);
      if k >= 0 {
        assert panels[k].panelId == id;
      }
    }
  }

  /** What each backend call of one attempt delivers. */
  datatype PingStatus = PingStatus(good: bool, needsUpgrade: bool)
  datatype Backend = Backend(
    connected: bool,                 // NetInfo.isConnected.fetch()
    token: Option<string>,           // POST /token/ (None: null result)
    panelList: Option<seq<Panel>>,   // GET site/list (None: null result)
    usersSynced: bool,               // backendPanelSync
    setCodeOk: bool,                 // POST site/setcode returned non-null
    ping: PingStatus)                // backendPanelStatus

  /** Where an attempt ends. */
  datatype LoginOutcome =
    | NoConnection
    | NoServer
    | NoCredentials
    | AuthFailed
    | NoPanelList
    | SelectPanel(panels: seq<Panel>, lastId: StoredId)
    | InvalidCode(panel: Panel)
    | SyncFailed(panel: Panel)
    | SetCodeFailed(panel: Panel)
    | PanelUnreachable(panel: Panel)
    | SmartcomUpgrade(panel: Panel)
    | PanelLogin(panel: Panel)
  {
    /** The attempt itself calls `onLoginFinished`; otherwise that is left to the
        selection screen's `onClose` or to `backendPanelLogin`'s callbacks. */
    predicate FinishesAttempt()
    {
      !SelectPanel? && !PanelLogin?
    }

    /** The attempt got past the user-code check, where the PIN store is written. */
    predicate PassedCodeCheck()
    {
      SyncFailed? || SetCodeFailed? || PanelUnreachable? || SmartcomUpgrade? || PanelLogin?
    }

    /** The attempt got as far as requesting a token. */
    predicate RequestedToken()
    {
      !NoConnection? && !NoServer? && !NoCredentials?
    }
  }

  /** How an attempt ends after a passed code check on panel `p`: the user sync when
      the panel's user list is not synchronised (`panel_appsync === 0`), set-code, the
      ping, then the upgrade diversion or the panel login. */
  function ConnectOutcome(p: Panel, b: Backend): (o: LoginOutcome)
    ensures o.PassedCodeCheck() && o.panel == p
  {
    if p.appSync == 0 && !b.usersSynced then SyncFailed(p)
    else if !b.setCodeOk then SetCodeFailed(p)
    else if !b.ping.good then PanelUnreachable(p)
    else if b.ping.needsUpgrade && p.panelUser.Some? && p.panelUser.value.accessFirmwareUpgrade == 1
    then SmartcomUpgrade(p)
    else PanelLogin(p)
  }

  /** How an attempt ends once panel `p` is chosen: the code check, then the rest. */
  function PanelOutcome(p: Panel, codeValid: bool, b: Backend): LoginOutcome
  {
    if !codeValid then InvalidCode(p) else ConnectOutcome(p, b)
  }

  /** The terminal outcome of one attempt, from the screen's fields, the
      `force_select_panel` argument, the code check and the backend's answers. */
  function AttemptOutcome(server: string, user: string, password: string, lastId: StoredId,
                          forceSelect: bool, codeValid: bool, b: Backend): LoginOutcome
  {
    if !b.connected then NoConnection
    else if server == "" then NoServer
    else if user == "" || password == "" then NoCredentials
    else if b.token.None? then AuthFailed
    else ListOutcome(lastId, forceSelect, codeValid, b)
  }

  /** The outcome once a token was issued: the panel list, the choice of panel, then
      the panel steps. */
  function ListOutcome(lastId: StoredId, forceSelect: bool, codeValid: bool, b: Backend): LoginOutcome
  {
    if b.panelList.None? then NoPanelList
    else
      var chosen := ChosenPanel(b.panelList.value, lastId);
      if chosen.None? || forceSelect then SelectPanel(b.panelList.value, lastId)
      else PanelOutcome(chosen.value, codeValid, b)
  }

  /** No connection, no server, or a missing username or password each end the
      attempt before the token request; every other input reaches it. */
  lemma PrerequisitesGateTokenRequest(server: string, user: string, password: string, lastId: StoredId,
                                      forceSelect: bool, codeValid: bool, b: Backend)
    ensures !AttemptOutcome(server, user, password, lastId, forceSelect, codeValid, b).RequestedToken()
            <==> !b.connected || server == "" || user == "" || password == ""
    ensures !b.connected ==> AttemptOutcome(server, user, password, lastId, forceSelect, codeValid, b) == NoConnection
  {
  }

  /** The selection screen opens exactly when the list came back and no panel was chosen,
      or selection was forced; a one-panel account is no exception, and an empty list is
      not an error. */
  lemma SelectionIsOpenedExactly(server: string, user: string, password: string, lastId: StoredId,
                                 forceSelect: bool, codeValid: bool, b: Backend)
    requires b.connected && server != "" && user != "" && password != "" && b.token.Some?
    ensures var o := AttemptOutcome(server, user, password, lastId, forceSelect, codeValid, b);
      o.SelectPanel? <==> b.panelList.Some? && (ChosenPanel(b.panelList.value, lastId).None? || forceSelect)
    ensures b.panelList == Some([]) ==>
      AttemptOutcome(server, user, password, lastId, forceSelect, codeValid, b) == SelectPanel([], lastId)
    ensures b.panelList.Some? && |b.panelList.value| == 1 && forceSelect ==>
      AttemptOutcome(server, user, password, lastId, forceSelect, codeValid, b).SelectPanel?
    ensures b.panelList.None? ==> AttemptOutcome(server, user, password, lastId, forceSelect, codeValid, b) == NoPanelList
  {
  }

  /** Once a panel is chosen: a failed code check stops before the PIN store is touched;
      the user sync runs only for `panel_appsync === 0` and its failure stops the attempt;
      set-code runs only after the sync succeeded or was skipped, the ping only after
      set-code succeeded; the upgrade screen only for a good ping that needs an upgrade
      and a user with upgrade rights; otherwise the panel login is called. */
  lemma StepsRunInOrder(server: string, user: string, password: string, lastId: StoredId,
                        forceSelect: bool, codeValid: bool, b: Backend)
    ensures var o := AttemptOutcome(server, user, password, lastId, forceSelect, codeValid, b);
      (o.InvalidCode? || o.PassedCodeCheck()) ==>
        b.panelList.Some? && !forceSelect && ChosenPanel(b.panelList.value, lastId) == Some(o.panel) &&
        (o.PassedCodeCheck() <==> codeValid)
    ensures var o := AttemptOutcome(server, user, password, lastId, forceSelect, codeValid, b);
      o.SyncFailed? ==> o.panel.appSync == 0 && !b.usersSynced
    ensures var o := AttemptOutcome(server, user, password, lastId, forceSelect, codeValid, b);
      (o.SetCodeFailed? || o.PanelUnreachable? || o.SmartcomUpgrade? || o.PanelLogin?) ==>
        (o.panel.appSync != 0 || b.usersSynced)
    ensures var o := AttemptOutcome(server, user, password, lastId, forceSelect, codeValid, b);
      (o.PanelUnreachable? || o.SmartcomUpgrade? || o.PanelLogin?) ==> b.setCodeOk
    ensures var o := AttemptOutcome(server, user, password, lastId, forceSelect, codeValid, b);
      (o.SmartcomUpgrade? || o.PanelLogin?) ==>
        (b.ping.good &&
         (o.SmartcomUpgrade? <==> b.ping.needsUpgrade && o.panel.panelUser.Some? &&
                                  o.panel.panelUser.value.accessFirmwareUpgrade == 1))
  {
  }

  /** The remembered-PIN store: the last PIN per (panel key, username). */
  type PinStore = map<(string, string), string>

  /** `codeStorageLastPinGet` followed by the truthiness test of its result. */
  function LastPin(pins: PinStore, panelKey: string, user: string): Option<string>
  {
    if (panelKey, user) in pins && pins[(panelKey, user)] != "" then Some(pins[(panelKey, user)]) else None
  }

  /** The store after a passed code check: the PIN is kept when remember-me or
      fingerprint is enabled for it, and the entry is deleted otherwise. */
  function PinsAfterCodeCheck(pins: PinStore, panelKey: string, user: string, code: string, keep: bool): (r: PinStore)
    ensures keep ==> (panelKey, user) in r && r[(panelKey, user)] == code
    ensures !keep ==> (panelKey, user) !in r
    ensures forall k :: k != (panelKey, user) ==> (k in r <==> k in pins) && (k in r ==> r[k] == pins[k])
  {
    if keep then pins[(panelKey, user) := code] else pins - {(panelKey, user)}
  }

  /** The PIN store after an attempt that ended with `o`, where `code` was the form's code. */
  function PinsAfterAttempt(pins: PinStore, settings: set<(string, string, string, CodeSetting)>,
                            user: string, code: string, o: LoginOutcome): PinStore
  {
    if o.PassedCodeCheck() then
      var key := PanelKey(IdNumber(o.panel.panelId));
      PinsAfterCodeCheck(pins, key, user, code, (key, user, code, RememberMe) in settings ||
                                                (key, user, code, Fingerprint) in settings)
    else pins
  }

  /** A PIN kept at login is what the next prefill finds once the panel id has been
      stored and read back as text; a PIN dropped at login is not found. */
  lemma KeptPinIsFoundAgain(pins: PinStore, panelId: int, user: string, code: string, keep: bool)
    ensures var after := PinsAfterCodeCheck(pins, PanelKey(IdNumber(panelId)), user, code, keep);
      LastPin(after, PanelKey(IdText(IntToDecimal(panelId))), user) == (if keep && code != "" then Some(code) else None)
  {
    StoredTextMatchesNumber(panelId);
  }

  /** The two per-code settings `codeStorageEnabled` is asked about. */
  datatype CodeSetting = RememberMe | Fingerprint

  /** The user record the screen dispatches to the application store. */
  datatype UserInfo = UserInfo(email: string, apiServer: string, apiToken: string, panelUserCode: Option<string>)

  /** The screen's `this.state` (the theme and branding images are not modelled).
      `loginButtonDisbled` is the misspelled key the biometric path writes: it is a
      key of its own, and nothing reads it. */
  datatype ScreenState = ScreenState(
    formUserCode: string,
    storedUserCode: string,
    fingerprintEnabled: bool,
    fingerprintSupported: bool,
    fingerprintEnrolled: bool,
    fingerprintModalVisible: bool,
    loginButtonDisabled: bool,
    activityAnimating: bool,
    progressVisible: bool,
    progressTitle: string,
    progress: real,
    loginButtonDisbled: Option<bool>)

  const InitialState: ScreenState :=
    ScreenState("", "", false, false, false, false, false, false, false, "", 0.0, None)

  /** The state `onLoginFinished` leaves: login re-enabled, activity and progress hidden. */
  function Reset(s: ScreenState): (r: ScreenState)
    ensures !r.loginButtonDisabled && !r.activityAnimating && !r.progressVisible
    ensures r.formUserCode == s.formUserCode && r.storedUserCode == s.storedUserCode
    ensures r.fingerprintEnabled == s.fingerprintEnabled && r.progress == s.progress
  {
    s.(loginButtonDisabled := false, activityAnimating := false, progressVisible := false)
  }

  /** The state a login attempt leaves, given where it ended. */
  function StateAfterAttempt(s: ScreenState, o: LoginOutcome): (r: ScreenState)
    ensures r.formUserCode == s.formUserCode && r.storedUserCode == s.storedUserCode
    ensures r.loginButtonDisabled == (s.loginButtonDisabled && !o.FinishesAttempt())
  {
    var busy := s.(activityAnimating := true);
    if !o.FinishesAttempt() then busy
    else if o.SyncFailed? then Reset(busy.(progressVisible := false, progressTitle := "", progress := 0.0))
    else Reset(busy)
  }

  /** An attempt shows the activity indicator first thing, so whether it was already
      showing makes no difference to the state the attempt leaves. */
  lemma AttemptStateIgnoresActivity(s: ScreenState, o: LoginOutcome)
    ensures StateAfterAttempt(s.(activityAnimating := true), o) == StateAfterAttempt(s, o)
  {
  }

  /** An attempt leaves the biometric modal as it found it, so hiding the modal before
      or after the attempt comes to the same. */
  lemma AttemptStateIgnoresModal(s: ScreenState, o: LoginOutcome)
    ensures StateAfterAttempt(s, o).fingerprintModalVisible == s.fingerprintModalVisible
    ensures StateAfterAttempt(s, o).(fingerprintModalVisible := false) ==
            StateAfterAttempt(s.(fingerprintModalVisible := false), o)
  {
  }

  /** The state a successful biometric login leaves, whether or not the screen showed
      its own modal meanwhile: the attempt's state from the stored code, modal hidden. */
  lemma BiometricAttemptState(s: ScreenState, android: bool, o: LoginOutcome)
    ensures var shown := if android then s.(fingerprintModalVisible := true) else s;
      var r := StateAfterAttempt(s.(formUserCode := s.storedUserCode, loginButtonDisbled := Some(false),
                                    fingerprintModalVisible := false), o);
      StateAfterAttempt(shown.(formUserCode := shown.storedUserCode, loginButtonDisbled := Some(false)), o)
        .(fingerprintModalVisible := false) == r &&
      r.formUserCode == s.storedUserCode && r.loginButtonDisbled == Some(false) &&
      r.loginButtonDisabled == (if o.FinishesAttempt() then false else s.loginButtonDisabled) &&
      !r.fingerprintModalVisible
  {
    var shown := if android then s.(fingerprintModalVisible := true) else s;
    AttemptStateIgnoresModal(shown.(formUserCode := shown.storedUserCode, loginButtonDisbled := Some(false)), o);
    assert shown.(formUserCode := shown.storedUserCode, loginButtonDisbled := Some(false))
             .(fingerprintModalVisible := false) ==
           s.(formUserCode := s.storedUserCode, loginButtonDisbled := Some(false), fingerprintModalVisible := false);
  }

  /** The user record last dispatched by an attempt that ended with `o`. */
  function UserAfterAttempt(previous: Option<UserInfo>, server: string, user: string, code: string,
                            token: Option<string>, o: LoginOutcome): Option<UserInfo>
  {
    if !o.RequestedToken() then previous
    else match token
      case None => Some(UserInfo(user, server, "", None))
      case Some(t) => Some(UserInfo(user, server, t, Some(code)))
  }

  class LoginScreen {
    var state: ScreenState
    var username: string
    var password: string
    var apiServer: string
    var panelList: Option<seq<Panel>>
    var lastPanelId: StoredId
    var progressCancelled: bool
    var mounted: bool
    /** The application store's current user, as this screen last dispatched it. */
    var currentUser: Option<UserInfo>
    /** `codeStorageLastPin*`: the remembered PIN per (panel key, username). */
    var lastPins: PinStore
    /** `codeStorageEnabled`: the (panel key, username, code, setting) combinations enabled. */
    var codeSettings: set<(string, string, string, CodeSetting)>
    /** `validatePanelUserCode`. */
    const isValidUserCode: string -> bool

    constructor (defaultServer: string, validator: string -> bool,
                 pins: PinStore, settings: set<(string, string, string, CodeSetting)>)
      ensures state == InitialState
      ensures username == "" && password == "" && apiServer == defaultServer
      ensures panelList == Some([]) && lastPanelId == NoId && !progressCancelled && !mounted
      ensures currentUser == None && lastPins == pins && codeSettings == settings
      ensures isValidUserCode == validator
    {
      state := InitialState;
      username, password, apiServer := "", "", defaultServer;
      panelList := Some([]);
      lastPanelId := NoId;
      progressCancelled := false;
      mounted := false;
      currentUser := None;
      lastPins := pins;
      codeSettings := settings;
      isValidUserCode := validator;
    }

    method DidMount()
      modifies this`mounted
      ensures mounted
    {
      mounted := true;
    }

    method WillUnmount()
      modifies this`mounted
      ensures !mounted
    {
      mounted := false;
    }

    /** A deep link (its parsed query parameters) fills in the account only when it
        carries both an e-mail and a password; the server becomes `https://<broker>`. */
    method LinkingHandler(query: map<string, string>) returns (usingLinkingAccount: bool)
      modifies this`username, this`password, this`apiServer, this`state
      ensures usingLinkingAccount <==>
        "useremail" in query && query["useremail"] != "" && "password" in query && query["password"] != ""
      ensures usingLinkingAccount ==>
        username == query["useremail"] && password == query["password"] &&
        apiServer == "https://" + (if "broker" in query then query["broker"] else "undefined") &&
        state == old(state).(formUserCode := if "usercode" in query then query["usercode"] else "")
      ensures !usingLinkingAccount ==>
        username == old(username) && password == old(password) && apiServer == old(apiServer) &&
        state == old(state)
    {
      usingLinkingAccount := false;
      if "useremail" in query && query["useremail"] != "" && "password" in query && query["password"] != "" {
        username := query["useremail"];
        password := query["password"];
        apiServer := "https://" + (if "broker" in query then query["broker"] else "undefined");
        state := state.(formUserCode := if "usercode" in query then query["usercode"] else "");
        usingLinkingAccount := true;
      }
    }

    /** Prefill from the PIN remembered for the last panel: the form gets the PIN only
        with remember-me, the stored code only with fingerprint, and no PIN clears the form. */
    method LoadStoredPin()
      modifies this`state
      ensures !IsSet(lastPanelId) ==> state == old(state)
      ensures IsSet(lastPanelId) && LastPin(lastPins, PanelKey(lastPanelId), username).None? ==>
        state == old(state).(formUserCode := "")
      ensures IsSet(lastPanelId) && LastPin(lastPins, PanelKey(lastPanelId), username).Some? ==>
        var pin := LastPin(lastPins, PanelKey(lastPanelId), username).value;
        var key := PanelKey(lastPanelId);
        var remember := (key, username, pin, RememberMe) in codeSettings;
        var fingerprint := (key, username, pin, Fingerprint) in codeSettings;
        state == old(state).(formUserCode := if remember then pin else "",
                             fingerprintEnabled := fingerprint,
                             storedUserCode := if fingerprint then pin else old(state).storedUserCode)
    {
      if IsSet(lastPanelId) {
        var key := PanelKey(lastPanelId);
        var lastPin := LastPin(lastPins, key, username);
        if lastPin.Some? {
          var pin := lastPin.value;
          var rememberMeEnabled := (key, username, pin, RememberMe) in codeSettings;
          var fingerprintEnabled := (key, username, pin, Fingerprint) in codeSettings;
          if rememberMeEnabled {
            state := state.(formUserCode := pin, fingerprintEnabled := fingerprintEnabled);
          } else {
            state := state.(formUserCode := "", fingerprintEnabled := fingerprintEnabled);
          }
          if fingerprintEnabled {
            state := state.(storedUserCode := pin);
          }
        } else {
          state := state.(formUserCode := "");
        }
      }
    }

    /** The end of mount: record the biometric capabilities, and start a biometric
        login only with hardware, an enrolment, fingerprint enabled and a stored code. */
    method StartBiometricGate(hasHardware: bool, isEnrolled: bool) returns (startAuth: bool)
      modifies this`state
      ensures state == old(state).(fingerprintSupported := hasHardware, fingerprintEnrolled := isEnrolled)
      ensures startAuth <==> hasHardware && isEnrolled && state.fingerprintEnabled && state.storedUserCode != ""
    {
      state := state.(fingerprintSupported := hasHardware, fingerprintEnrolled := isEnrolled);
      startAuth := hasHardware && isEnrolled && state.fingerprintEnabled && state.storedUserCode != "";
    }

    /** `updateProgress`: show the progress and report whether the user cancelled. */
    method UpdateProgress(visible: bool, title: string, value: real) returns (cancelled: bool)
      modifies this`state
      ensures state == old(state).(progressVisible := visible, progress := value, progressTitle := title)
      ensures cancelled == progressCancelled
    {
      state := state.(progressVisible := visible, progress := value, progressTitle := title);
      cancelled := progressCancelled;
    }

    method OnProgressCancelled()
      modifies this`progressCancelled
      ensures progressCancelled
    {
      progressCancelled := true;
    }

    /** `onLoginFinished`: re-enable the login button, hide activity and progress,
        clear the cancel flag. */
    method OnLoginFinished()
      modifies this`state, this`progressCancelled
      ensures state == Reset(old(state)) && !progressCancelled
    {
      state := state.(loginButtonDisabled := false, activityAnimating := false, progressVisible := false);
      progressCancelled := false;
    }

    /** The end of every branch of an attempt that finishes it: the sync failure hides
        the progress bar first, then `onLoginFinished` runs. */
    method Conclude(o: LoginOutcome)
      requires state.activityAnimating
      modifies this`state, this`progressCancelled
      ensures state == StateAfterAttempt(old(state), o)
      ensures progressCancelled == if o.FinishesAttempt() then false else old(progressCancelled)
    {
      if o.FinishesAttempt() {
        if o.SyncFailed? {
          var _ := UpdateProgress(false, "", 0.0);
        }
        OnLoginFinished();
      }
    }

    /** The selection screen's callback: remember the chosen panel and prefill its PIN. */
    method OnPanelSelected(p: Panel)
      modifies this`state, this`lastPanelId
      ensures lastPanelId == IdNumber(p.panelId)
      ensures p.panelId == 0 ==> state == old(state)
      ensures p.panelId != 0 && LastPin(lastPins, PanelKey(lastPanelId), username).None? ==>
        state == old(state).(formUserCode := "")
      ensures p.panelId != 0 && LastPin(lastPins, PanelKey(lastPanelId), username).Some? ==>
        var pin := LastPin(lastPins, PanelKey(lastPanelId), username).value;
        var key := PanelKey(lastPanelId);
        var remember := (key, username, pin, RememberMe) in codeSettings;
        var fingerprint := (key, username, pin, Fingerprint) in codeSettings;
        state == old(state).(formUserCode := if remember then pin else "",
                             fingerprintEnabled := fingerprint,
                             storedUserCode := if fingerprint then pin else old(state).storedUserCode)
    {
      lastPanelId := IdNumber(p.panelId);
      LoadStoredPin();
    }

    /** The selection screen's `onClose`: finish the attempt only while still mounted. */
    method OnSelectPanelClosed()
      modifies this`state, this`progressCancelled
      ensures mounted ==> state == Reset(old(state)) && !progressCancelled
      ensures !mounted ==> state == old(state) && progressCancelled == old(progressCancelled)
    {
      if mounted {
        OnLoginFinished();
      }
    }

    /** The panel search of an attempt, scanning the whole list as the source's `map` does. */
    method FindPanel(panels: seq<Panel>) returns (chosen: Option<Panel>)
      ensures chosen == ChosenPanel(panels, lastPanelId)
    {
      chosen := None;
      if |panels| == 1 {
        chosen := Some(panels[0]);
      } else if lastPanelId != NoId {
        var target := ParseStoredId(lastPanelId);
        var i := 0;
        while i < |panels|
          invariant 0 <= i <= |panels|
          invariant target.None? ==> chosen.None?
          invariant target.Some? ==>
            var k := LastMatchIndex(panels[..i], target.value);
            chosen == if k < 0 then None else Some(panels[k])
        {
          if target.Some? && panels[i].panelId == target.value {
            chosen := Some(panels[i]);
          }
          assert panels[..i + 1][..i] == panels[..i];
          i := i + 1;
        }
        assert panels[..i] == panels;
      }
    }

    /** One login attempt (`login(force_select_panel)`). */
    method Login(forceSelect: bool, b: Backend) returns (outcome: LoginOutcome)
      modifies this`state, this`panelList, this`progressCancelled, this`currentUser, this`lastPins
      ensures outcome == AttemptOutcome(apiServer, username, password, lastPanelId, forceSelect,
                                        isValidUserCode(old(state).formUserCode), b)
      ensures state == StateAfterAttempt(old(state), outcome)
      ensures progressCancelled == if outcome.FinishesAttempt() then false else old(progressCancelled)
      ensures panelList == if outcome.RequestedToken() && !outcome.AuthFailed? then b.panelList else old(panelList)
      ensures currentUser == UserAfterAttempt(old(currentUser), apiServer, username, old(state).formUserCode, b.token, outcome)
      ensures lastPins == PinsAfterAttempt(old(lastPins), codeSettings, username, old(state).formUserCode, outcome)
    {
      state := state.(activityAnimating := true);
      if !b.connected {
        outcome := NoConnection;
      } else if apiServer == "" {
        outcome := NoServer;
      } else if username == "" || password == "" {
        outcome := NoCredentials;
      } else {
        outcome := Authenticate(forceSelect, b);
        PrerequisitesGateTokenRequest(apiServer, username, password, lastPanelId, forceSelect,
                                      isValidUserCode(old(state).formUserCode), b);
        AttemptStateIgnoresActivity(old(state), outcome);
        return;
      }
      Conclude(outcome);
      AttemptStateIgnoresActivity(old(state), outcome);
    }

    /** The attempt from the token request on, once connectivity and the account
        details are known to be present. */
    method Authenticate(forceSelect: bool, b: Backend) returns (outcome: LoginOutcome)
      requires state.activityAnimating && b.connected && apiServer != "" && username != "" && password != ""
      modifies this`state, this`panelList, this`progressCancelled, this`currentUser, this`lastPins
      ensures outcome == AttemptOutcome(apiServer, username, password, lastPanelId, forceSelect,
                                        isValidUserCode(old(state).formUserCode), b)
      ensures state == StateAfterAttempt(old(state), outcome)
      ensures progressCancelled == if outcome.FinishesAttempt() then false else old(progressCancelled)
      ensures panelList == if outcome.AuthFailed? then old(panelList) else b.panelList
      ensures currentUser == UserAfterAttempt(old(currentUser), apiServer, username, old(state).formUserCode, b.token, outcome)
      ensures lastPins == PinsAfterAttempt(old(lastPins), codeSettings, username, old(state).formUserCode, outcome)
    {
      currentUser := Some(UserInfo(username, apiServer, "", None));
      if b.token.None? {
        outcome := AuthFailed;
        Conclude(outcome);
        return;
      }
      currentUser := Some(UserInfo(username, apiServer, b.token.value, Some(state.formUserCode)));
      outcome := ProcessPanelList(forceSelect, b);
    }

    /** The steps after the token: store the panel list, choose a panel, and either
        open the selection screen or go on with the chosen panel. */
    method ProcessPanelList(forceSelect: bool, b: Backend) returns (outcome: LoginOutcome)
      requires state.activityAnimating
      modifies this`state, this`panelList, this`progressCancelled, this`lastPins
      ensures outcome == ListOutcome(lastPanelId, forceSelect, isValidUserCode(old(state).formUserCode), b)
      ensures state == StateAfterAttempt(old(state), outcome)
      ensures progressCancelled == if outcome.FinishesAttempt() then false else old(progressCancelled)
      ensures panelList == b.panelList
      ensures lastPins == PinsAfterAttempt(old(lastPins), codeSettings, username, old(state).formUserCode, outcome)
    {
      panelList := b.panelList;
      if panelList.None? {
        outcome := NoPanelList;
        Conclude(outcome);
        return;
      }
      var chosen := FindPanel(panelList.value);
      if chosen.None? || forceSelect {
        return SelectPanel(panelList.value, lastPanelId);
      }
      outcome := LoginToPanel(chosen.value, b);
    }

    /** The rest of an attempt once panel `p` is chosen: the code check and the PIN
        store update, then the backend steps. */
    method LoginToPanel(p: Panel, b: Backend) returns (outcome: LoginOutcome)
      requires state.activityAnimating
      modifies this`state, this`progressCancelled, this`lastPins
      ensures outcome == PanelOutcome(p, isValidUserCode(old(state).formUserCode), b)
      ensures state == StateAfterAttempt(old(state), outcome)
      ensures progressCancelled == if outcome.FinishesAttempt() then false else old(progressCancelled)
      ensures lastPins == PinsAfterAttempt(old(lastPins), codeSettings, username, old(state).formUserCode, outcome)
    {
      var code := state.formUserCode;
      if !isValidUserCode(code) {
        outcome := InvalidCode(p);
        Conclude(outcome);
        return;
      }
      var key := PanelKey(IdNumber(p.panelId));
      var rememberMeEnabled := (key, username, code, RememberMe) in codeSettings;
      var fingerprintEnabled := (key, username, code, Fingerprint) in codeSettings;
      if rememberMeEnabled || fingerprintEnabled {
        lastPins := lastPins[(key, username) := code];
      } else {
        lastPins := lastPins - {(key, username)};
      }
      outcome := ConnectToPanel(p, b);
    }

    /** User sync (only for `panel_appsync === 0`), set-code, ping, then the upgrade
        diversion or the panel login; every failure finishes the attempt. */
    method ConnectToPanel(p: Panel, b: Backend) returns (outcome: LoginOutcome)
      requires state.activityAnimating
      modifies this`state, this`progressCancelled
      ensures outcome == ConnectOutcome(p, b)
      ensures state == StateAfterAttempt(old(state), outcome)
      ensures progressCancelled == if outcome.FinishesAttempt() then false else old(progressCancelled)
    {
      if p.appSync == 0 && !b.usersSynced {
        outcome := SyncFailed(p);
      } else if !b.setCodeOk {
        outcome := SetCodeFailed(p);
      } else if !b.ping.good {
        outcome := PanelUnreachable(p);
      } else if b.ping.needsUpgrade && p.panelUser.Some? && p.panelUser.value.accessFirmwareUpgrade == 1 {
        outcome := SmartcomUpgrade(p);
      } else {
        outcome := PanelLogin(p);
      }
      Conclude(outcome);
    }

    /** The Login button (and the Select Panel button with `forceSelect`): disable the
        button, then run an attempt. The button comes back only where the attempt finishes. */
    method PressLogin(forceSelect: bool, b: Backend) returns (outcome: LoginOutcome)
      modifies this`state, this`panelList, this`progressCancelled, this`currentUser, this`lastPins
      ensures outcome == AttemptOutcome(apiServer, username, password, lastPanelId, forceSelect,
                                        isValidUserCode(old(state).formUserCode), b)
      ensures state == StateAfterAttempt(old(state).(loginButtonDisabled := true), outcome)
      ensures state.loginButtonDisabled <==> !outcome.FinishesAttempt()
      ensures progressCancelled == if outcome.FinishesAttempt() then false else old(progressCancelled)
      ensures panelList == if outcome.RequestedToken() && !outcome.AuthFailed? then b.panelList else old(panelList)
      ensures currentUser == UserAfterAttempt(old(currentUser), apiServer, username, old(state).formUserCode, b.token, outcome)
      ensures lastPins == PinsAfterAttempt(old(lastPins), codeSettings, username, old(state).formUserCode, outcome)
    {
      state := state.(loginButtonDisabled := true);
      outcome := Login(forceSelect, b);
    }

    /** The successful branch of a biometric login: the stored code replaces the form's
        code (and the misspelled `login_button_disbled` key is written), then an attempt
        runs without forced selection. */
    method BiometricLogin(b: Backend) returns (outcome: LoginOutcome)
      modifies this`state, this`panelList, this`progressCancelled, this`currentUser, this`lastPins
      ensures outcome == AttemptOutcome(apiServer, username, password, lastPanelId, false,
                                        isValidUserCode(old(state).storedUserCode), b)
      ensures state == StateAfterAttempt(old(state).(formUserCode := old(state).storedUserCode,
                                                     loginButtonDisbled := Some(false)), outcome)
      ensures progressCancelled == if outcome.FinishesAttempt() then false else old(progressCancelled)
      ensures panelList == if outcome.RequestedToken() && !outcome.AuthFailed? then b.panelList else old(panelList)
      ensures currentUser == UserAfterAttempt(old(currentUser), apiServer, username, old(state).storedUserCode, b.token, outcome)
      ensures lastPins == PinsAfterAttempt(old(lastPins), codeSettings, username, old(state).storedUserCode, outcome)
    {
      state := state.(formUserCode := state.storedUserCode, loginButtonDisbled := Some(false));
      outcome := Login(false, b);
    }

    /** A biometric login: on success the stored code replaces the form's code (and the
        misspelled `login_button_disbled` key is written) before an attempt runs; the
        modal is hidden afterwards either way. */
    method FingerprintAuth(android: bool, success: bool, b: Backend) returns (outcome: Option<LoginOutcome>)
      modifies this`state, this`panelList, this`progressCancelled, this`currentUser, this`lastPins
      ensures !state.fingerprintModalVisible
      ensures success <==> outcome.Some?
      ensures success ==>
        outcome.value == AttemptOutcome(apiServer, username, password, lastPanelId, false,
                                        isValidUserCode(old(state).storedUserCode), b) &&
        state.formUserCode == old(state).storedUserCode &&
        state.loginButtonDisbled == Some(false) &&
        state.loginButtonDisabled == (if outcome.value.FinishesAttempt() then false else old(state).loginButtonDisabled)
      ensures success ==>
        state == StateAfterAttempt(old(state).(formUserCode := old(state).storedUserCode,
                                               loginButtonDisbled := Some(false),
                                               fingerprintModalVisible := false), outcome.value)
      ensures success ==>
        progressCancelled == (if outcome.value.FinishesAttempt() then false else old(progressCancelled)) &&
        panelList == (if outcome.value.RequestedToken() && !outcome.value.AuthFailed? then b.panelList
                      else old(panelList)) &&
        currentUser == UserAfterAttempt(old(currentUser), apiServer, username, old(state).storedUserCode,
                                        b.token, outcome.value) &&
        lastPins == PinsAfterAttempt(old(lastPins), codeSettings, username, old(state).storedUserCode,
                                     outcome.value)
      ensures !success ==>
        (state == old(state).(fingerprintModalVisible := false) &&
         panelList == old(panelList) && lastPins == old(lastPins) && currentUser == old(currentUser))
    {
      if android {
        state := state.(fingerprintModalVisible := true);
      }
      outcome := None;
      if success {
        var o := BiometricLogin(b);
        outcome := Some(o);
        BiometricAttemptState(old(state), android, o);
      }
      state := state.(fingerprintModalVisible := false);
    }
  }

  /** Running an attempt twice leaves the state of the second attempt alone, provided
      the first one handed over, or finished without leaving progress on show. */
  lemma RetryStateIsClean(s: ScreenState, o1: LoginOutcome, o2: LoginOutcome)
    ensures !o1.FinishesAttempt() ||
            (!s.progressVisible && (o1.SyncFailed? ==> s.progressTitle == "" && s.progress == 0.0)) ==>
            StateAfterAttempt(StateAfterAttempt(s.(loginButtonDisabled := true), o1).(loginButtonDisabled := true), o2) ==
            StateAfterAttempt(s.(loginButtonDisabled := true), o2)
  {
    if !o1.FinishesAttempt() || (!s.progressVisible && (o1.SyncFailed? ==> s.progressTitle == "" && s.progress == 0.0)) {
      var pressed := s.(loginButtonDisabled := true);
      var again := StateAfterAttempt(pressed, o1).(loginButtonDisabled := true);
      AttemptStateIgnoresActivity(pressed, o2);
      AttemptStateIgnoresActivity(again, o2);
      assert again.(activityAnimating := true) == pressed.(activityAnimating := true);
    }
  }

  /** Keeping or dropping the same PIN twice is the same as doing it once: a first
      attempt that stopped before the code check, or passed it on the same panel as
      the second, leaves the PIN store as the second attempt alone would. */
  lemma {:induction false} RetryPinsAreClean(pins: PinStore, settings: set<(string, string, string, CodeSetting)>,
                                             user: string, code: string, o1: LoginOutcome, o2: LoginOutcome)
    ensures !o1.PassedCodeCheck() || (o2.PassedCodeCheck() && o1.panel.panelId == o2.panel.panelId) ==>
            PinsAfterAttempt(PinsAfterAttempt(pins, settings, user, code, o1), settings, user, code, o2) ==
            PinsAfterAttempt(pins, settings, user, code, o2)
  {
    if o1.PassedCodeCheck() {
      var key := PanelKey(IdNumber(o1.panel.panelId));
      var keep := (key, user, code, RememberMe) in settings || (key, user, code, Fingerprint) in settings;
      var once := PinsAfterCodeCheck(pins, key, user, code, keep);
      assert PinsAfterCodeCheck(once, key, user, code, keep) == once;
    }
  }

  /** A second attempt starts from scratch: its outcome is the same function of the
      screen's fields and the new backend answers as the first one's, whatever the
      first attempt left behind; and after a failed first attempt, the state, PIN
      store, dispatched user and panel list are those one clean attempt would leave. */
  method RetryAttempt(screen: LoginScreen, forceSelect: bool, first: Backend, second: Backend)
    returns (o1: LoginOutcome, o2: LoginOutcome)
    modifies screen
    ensures o1 == AttemptOutcome(old(screen.apiServer), old(screen.username), old(screen.password),
                                 old(screen.lastPanelId), forceSelect,
                                 screen.isValidUserCode(old(screen.state.formUserCode)), first)
    ensures o2 == AttemptOutcome(old(screen.apiServer), old(screen.username), old(screen.password),
                           old(screen.lastPanelId), forceSelect,
                           screen.isValidUserCode(old(screen.state.formUserCode)), second)
    ensures screen.state.loginButtonDisabled == !o2.FinishesAttempt()
    ensures !o1.FinishesAttempt() ||
            (!old(screen.state.progressVisible) &&
             (o1.SyncFailed? ==> old(screen.state.progressTitle) == "" && old(screen.state.progress) == 0.0)) ==>
      screen.state == StateAfterAttempt(old(screen.state).(loginButtonDisabled := true), o2)
    ensures !o1.PassedCodeCheck() || (o2.PassedCodeCheck() && o1.panel.panelId == o2.panel.panelId) ==>
      screen.lastPins == PinsAfterAttempt(old(screen.lastPins), old(screen.codeSettings), old(screen.username),
                                          old(screen.state.formUserCode), o2)
    ensures o2.RequestedToken() ==>
      screen.currentUser == UserAfterAttempt(old(screen.currentUser), old(screen.apiServer), old(screen.username),
                                             old(screen.state.formUserCode), second.token, o2)
    ensures o2.RequestedToken() && !o2.AuthFailed? ==> screen.panelList == second.panelList
    ensures o2.FinishesAttempt() || !o1.FinishesAttempt() ==>
      screen.progressCancelled == if o2.FinishesAttempt() then false else old(screen.progressCancelled)
  {
    o1 := screen.PressLogin(forceSelect, first);
    o2 := screen.PressLogin(forceSelect, second);
    RetryStateIsClean(old(screen.state), o1, o2);
    RetryPinsAreClean(old(screen.lastPins), screen.codeSettings, screen.username,
                      old(screen.state.formUserCode), o1, o2);
  }
}
