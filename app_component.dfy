/**
 * The application root (app.component.ts): its store subscriber forwards a new token to the
 * native side and shows error and success notifications, each only when it differs from the
 * last one handled; `ngOnInit` resets the exhibit context, records the platform and asks for a
 * stored token; `useLanguage` and the native setting dialog's confirm label.
 */
module AppComponent {
  import opened Wrappers
  import opened Domain

  // ---------------------------------------------------------------- de-duplication

  /** A value is handled when it is defined and differs from the last one handled. */
  predicate Passes<T(==)>(last: Option<T>, incoming: Option<T>)
  {
    incoming.Some? && incoming != last
  }

  /** No value follows itself. */
  ghost predicate NoConsecutiveRepeats<T>(s: seq<T>)
  {
    forall i, j :: 0 <= i && j == i + 1 && j < |s| ==> s[i] != s[j]
  }

  /** The values a subscriber that remembers the last handled value lets through, in order. */
  function Dedup<T(==)>(last: Option<T>, incoming: seq<Option<T>>): (handled: seq<T>)
    ensures NoConsecutiveRepeats(handled)
    ensures |handled| > 0 && last.Some? ==> handled[0] != last.value
    ensures incoming != [] && Passes(last, incoming[0]) ==> |handled| > 0 && handled[0] == incoming[0].value
    ensures |handled| <= |incoming|
    decreases |incoming|
  {
    if incoming == [] then []
    else if Passes(last, incoming[0]) then [incoming[0].value] + Dedup(incoming[0], incoming[1..])
    else Dedup(last, incoming[1..])
  }

  /** Every value the subscriber handles is one that arrived. */
  lemma {:induction false} DedupHandlesOnlyIncoming<T>(last: Option<T>, incoming: seq<Option<T>>)
    ensures forall x :: x in Dedup(last, incoming) ==> Some(x) in incoming
    decreases |incoming|
  {
    if incoming != [] {
      DedupHandlesOnlyIncoming(if Passes(last, incoming[0]) then incoming[0] else last, incoming[1..]);
    }
  }

  /** The same value arriving twice in a row is handled once. */
  lemma RepeatHandledOnce<T>(last: Option<T>, v: T)
    ensures Dedup(last, [Some(v), Some(v)]) == if last == Some(v) then [] else [v]
  {
    assert [Some(v), Some(v)][1..] == [Some(v)];
    assert [Some(v)][1..] == [];
  }

  /** The code the subscriber compares a notification by. */
  function CodeOf(m: Option<Message>): (code: Option<int>)
    ensures code.Some? <==> m.Some?
    ensures m.Some? ==> code.value == m.value.code
  {
    if m.Some? then Some(m.value.code) else None
  }

  // ---------------------------------------------------------------- outgoing calls and dialogs

  /** The language ids of the language catalogue. */
  datatype LanguageType = DE | ENG

  datatype Outgoing =
    | ToNative(body: string, name: string)        // sendToNative(body, name)
    | SnackBar(text: string, panel: string)       // snackBar.open(text, 'OK', {panelClass: [panel]})
    | AutoLogin(token: string)                    // nativeResponseService.autoLogin(data)
    | ChangeUserLanguage(language: LanguageType)  // languageService.transmitChangeUserLanguage(language)

  function TokenPart(current: Option<string>, token: Option<string>): seq<Outgoing>
  {
    if Passes(current, token) then [ToNative(token.value, "saveToken")] else []
  }

  function NotificationPart(current: Option<int>, m: Option<Message>, panel: string): seq<Outgoing>
  {
    if Passes(current, CodeOf(m)) then [SnackBar(m.value.message, panel)] else []
  }

  /** `useLanguage`: 'de' selects DE, anything else ENG. */
  function LanguageFor(language: string): (t: LanguageType)
    ensures t == DE <==> language == "de"
  {
    if language == "de" then DE else ENG
  }

  datatype SettingDialog = NoDialog | Dialog(settingType: string, confirm: Option<string>)

  /**
   * `openNativeSetting`: the wifi dialog confirms with 'To the Settings' on every platform; the
   * Bluetooth dialog with 'Activate Bluetooth' on Android, 'To the Settings' on IOS and no
   * label on the web; any other setting type opens nothing.
   */
  function OpenNativeSetting(nativeSettingType: Option<string>, platform: Platform): (d: SettingDialog)
    ensures nativeSettingType == Some("wifi") ==> d == Dialog("wifi", Some("To the Settings"))
    ensures nativeSettingType == Some("Bluetooth") ==> d.Dialog? && d.settingType == "Bluetooth"
    ensures nativeSettingType == Some("Bluetooth") ==>
              && (d.confirm == Some("Activate Bluetooth") <==> platform == Android)
              && (d.confirm == Some("To the Settings") <==> platform == IOS)
              && (d.confirm.None? <==> platform == Web)
    ensures d.Dialog? <==> nativeSettingType == Some("wifi") || nativeSettingType == Some("Bluetooth")
  {
    if nativeSettingType == Some("wifi") then
      var confirm := if platform == Android then "To the Settings" else if platform == IOS then "To the Settings" else "To the Settings";
      Dialog("wifi", Some(confirm))
    else if nativeSettingType == Some("Bluetooth") then
      Dialog("Bluetooth", if platform == Android then Some("Activate Bluetooth") else if platform == IOS then Some("To the Settings") else None)
    else NoDialog
  }

  // ---------------------------------------------------------------- the component

  class AppComponent {
    /** The application store as the root component sees it. */
    var store: Store
    var currentToken: Option<string>
    var currentError: Option<int>
    var currentSuccess: Option<int>
    var guest: Option<bool>
    var language: string
    var outgoing: seq<Outgoing>

    constructor (initial: Store)
      ensures store == initial && language == "en" && outgoing == []
      ensures currentToken == None && currentError == None && currentSuccess == None && guest == None
    {
      store := initial;
      language := "en";
      currentToken, currentError, currentSuccess := None, None, None;
      guest := None;
      outgoing := [];
    }

    /**
     * The store subscriber: the guest flag follows a defined user; a defined token that is new
     * goes to the native side; an error or success notification whose code is new is shown.
     * Each remembered value ends as the latest defined one.
     */
    method OnStoreChange()
      modifies this`guest, this`currentToken, this`currentError, this`currentSuccess, this`outgoing
      ensures guest == if store.user.Some? then Some(store.user.value.isGuest) else old(guest)
      ensures currentToken == if store.token.Some? then store.token else old(currentToken)
      ensures currentError == if store.errorMessage.Some? then CodeOf(store.errorMessage) else old(currentError)
      ensures currentSuccess == if store.successMessage.Some? then CodeOf(store.successMessage) else old(currentSuccess)
      ensures outgoing == old(outgoing) + TokenPart(old(currentToken), store.token)
                          + NotificationPart(old(currentError), store.errorMessage, "error-snackbar")
                          + NotificationPart(old(currentSuccess), store.successMessage, "success-snackbar")
    {
      if store.user.Some? {
        guest := Some(store.user.value.isGuest);
      }
      HandleToken(store.token);
      currentError := HandleNotification(currentError, store.errorMessage, "error-snackbar");
      currentSuccess := HandleNotification(currentSuccess, store.successMessage, "success-snackbar");
    }

    /** The token part of the subscriber: a defined token that is new is saved and remembered. */
    method HandleToken(token: Option<string>)
      modifies this`currentToken, this`outgoing
      ensures currentToken == if token.Some? then token else old(currentToken)
      ensures outgoing == old(outgoing) + TokenPart(old(currentToken), token)
    {
      if currentToken != token && token.Some? {
        outgoing := outgoing + [ToNative(token.value, "saveToken")];
        currentToken := token;
      }
    }

    /** One notification part of the subscriber: a message whose code is new is shown; the code remembered is returned. */
    method HandleNotification(current: Option<int>, m: Option<Message>, panel: string) returns (remembered: Option<int>)
      modifies this`outgoing
      ensures remembered == if m.Some? then CodeOf(m) else current
      ensures outgoing == old(outgoing) + NotificationPart(current, m, panel)
    {
      remembered := current;
      if m.Some? && Some(m.value.code) != current {
        outgoing := outgoing + [SnackBar(m.value.message, panel)];
        remembered := Some(m.value.code);
      }
    }

    /**
     * `getTokenForAutoLogin`, with the parsed local-storage entry passed in: the native side is
     * always asked; on the web a stored token logs in automatically.
     */
    method GetTokenForAutoLogin(stored: Option<string>)
      modifies this`outgoing
      ensures outgoing == old(outgoing) + [ToNative("getToken", "getToken")]
                          + (if store.platform != Some(IOS) && store.platform != Some(Android) && stored.Some?
                             then [AutoLogin(stored.value)] else [])
    {
      outgoing := outgoing + [ToNative("getToken", "getToken")];
      if store.platform != Some(IOS) && store.platform != Some(Android) {
        if stored.Some? {
          outgoing := outgoing + [AutoLogin(stored.value)];
        }
      }
    }

    /**
     * `ngOnInit`, with the tag `checkPlatform` returns passed in: the exhibit context is reset,
     * the platform is recorded, and the stored token is requested.
     */
    method NgOnInit(checkedPlatform: Platform, stored: Option<string>)
      modifies this`store, this`outgoing
      ensures store == old(store).(atExhibitParentId := 0, onExhibit := false, platform := Some(checkedPlatform))
      ensures outgoing == old(outgoing) + [ToNative("getToken", "getToken")]
                          + (if checkedPlatform == Web && stored.Some? then [AutoLogin(stored.value)] else [])
    {
      store := Reduce(store, ChangeAtExhibitParentId(0));
      store := Reduce(store, ChangeOnExhibit(false));
      store := Reduce(store, ChangePlatform(checkedPlatform));
      GetTokenForAutoLogin(stored);
    }

    method UseLanguage(l: string)
      modifies this`language, this`outgoing
      ensures language == l
      ensures outgoing == old(outgoing) + [ChangeUserLanguage(LanguageFor(l))]
    {
      if l == "de" {
        outgoing := outgoing + [ChangeUserLanguage(DE)];
      } else {
        outgoing := outgoing + [ChangeUserLanguage(ENG)];
      }
      language := l;
    }
  }

  /**
   * A fresh root component shown a series of store tokens sends each defined token once per
   * change: exactly the de-duplicated series, so never the same token twice in a row.
   */
  method TokenSeriesScenario(initial: Store, tokens: seq<Option<string>>) returns (sent: seq<Outgoing>)
    requires initial.token.None? && initial.errorMessage.None? && initial.successMessage.None?
    ensures sent == SaveTokens(Dedup(None, tokens))
    ensures NoConsecutiveRepeats(sent)
  {
    var app := new AppComponent(initial);
    ghost var handled: seq<string> := [];
    var i := 0;
    while i < |tokens|
      invariant 0 <= i <= |tokens|
      invariant fresh(app) && app.store.errorMessage.None? && app.store.successMessage.None?
      invariant app.outgoing == SaveTokens(handled)
      invariant handled + Dedup(app.currentToken, tokens[i..]) == Dedup(None, tokens)
    {
      ghost var step := if Passes(app.currentToken, tokens[i]) then [tokens[i].value] else [];
      SeriesStep(handled, app.currentToken, tokens, i);
      TokenStep(handled, app.currentToken, tokens[i]);
      app.store := app.store.(token := tokens[i]);
      app.OnStoreChange();
      handled := handled + step;
      i := i + 1;
    }
    assert tokens[i..] == [];
    sent := app.outgoing;
    SentTokensDistinct(tokens);
  }

  /** The messages a fresh subscriber sends for a token series never repeat back to back. */
  lemma SentTokensDistinct(tokens: seq<Option<string>>)
    ensures NoConsecutiveRepeats(SaveTokens(Dedup(None, tokens)))
  {
    SaveTokensKeepDistinct(Dedup(None, tokens));
  }

  lemma SeriesStep<T>(handled: seq<T>, last: Option<T>, incoming: seq<Option<T>>, i: nat)
    requires i < |incoming|
    ensures var step := if Passes(last, incoming[i]) then [incoming[i].value] else [];
            (handled + step) + Dedup(if incoming[i].Some? then incoming[i] else last, incoming[i + 1..])
            == handled + Dedup(last, incoming[i..])
  {
    var tail := incoming[i..];
    assert tail[0] == incoming[i] && tail[1..] == incoming[i + 1..];
    var step := if Passes(last, tail[0]) then [tail[0].value] else [];
    var rest := Dedup(if tail[0].Some? then tail[0] else last, tail[1..]);
    DedupStep(last, tail);
    Regroup(handled, step, rest, Dedup(last, tail));
  }

  lemma Regroup<T>(handled: seq<T>, step: seq<T>, rest: seq<T>, whole: seq<T>)
    requires whole == step + rest
    ensures (handled + step) + rest == handled + whole
  {
  }

  /** One step of the subscriber: the head is handled or not, and the remembered value moves on. */
  lemma DedupStep<T>(last: Option<T>, incoming: seq<Option<T>>)
    requires incoming != []
    ensures Dedup(last, incoming)
            == (if Passes(last, incoming[0]) then [incoming[0].value] else [])
               + Dedup(if incoming[0].Some? then incoming[0] else last, incoming[1..])
  {
  }

  function SaveTokens(ts: seq<string>): (r: seq<Outgoing>)
    ensures |r| == |ts|
    ensures forall i :: 0 <= i < |ts| ==> r[i] == ToNative(ts[i], "saveToken")
  {
    if ts == [] then [] else [ToNative(ts[0], "saveToken")] + SaveTokens(ts[1..])
  }

  /** The messages of one store change extend those of the tokens handled so far. */
  lemma TokenStep(handled: seq<string>, last: Option<string>, token: Option<string>)
    ensures SaveTokens(handled + (if Passes(last, token) then [token.value] else []))
            == SaveTokens(handled) + TokenPart(last, token)
            + NotificationPart(None, None, "error-snackbar") + NotificationPart(None, None, "success-snackbar")
  {
    var step := if Passes(last, token) then [token.value] else [];
    SaveTokensAppend(handled, step);
    assert TokenPart(last, token) == SaveTokens(step);
  }

  lemma SaveTokensAppend(a: seq<string>, b: seq<string>)
    ensures SaveTokens(a + b) == SaveTokens(a) + SaveTokens(b)
  {
  }

  lemma SaveTokensKeepDistinct(ts: seq<string>)
    requires NoConsecutiveRepeats(ts)
    ensures NoConsecutiveRepeats(SaveTokens(ts))
  {
  }
}
