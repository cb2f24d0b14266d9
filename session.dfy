/** The session gate: an invite code compared, after upper-casing, with one
    shared secret; a single durable flag in browser-local storage; and the
    top-level component that shows the login gate or the deck depending on
    an in-memory flag initialised from that storage. */
module Session {
  import opened Deck

  datatype Option<T> = None | Some(value: T)

  /** Browser-local storage, as string keys mapped to string values. */
  type Storage = map<string, string>

  const InviteCode: string := "UPANDUP2025"
  const AccessKey: string := "target_access"
  const GrantedValue: string := "granted"
  const InvalidCodeMessage: string := "Invalid invite code"

  // ---- Storage ----

  function GetItem(st: Storage, key: string): (r: Option<string>)
    ensures r.Some? <==> key in st
    ensures r.Some? ==> r.value == st[key]
  {
    if key in st then Some(st[key]) else None
  }

  function SetItem(st: Storage, key: string, value: string): (r: Storage)
    ensures r.Keys == st.Keys + {key}
    ensures r[key] == value
    ensures forall k :: k in st && k != key ==> r[k] == st[k]
  {
    st[key := value]
  }

  function RemoveItem(st: Storage, key: string): (r: Storage)
    ensures r.Keys == st.Keys - {key}
    ensures forall k :: k in r ==> r[k] == st[k]
  {
    st - {key}
  }

  /** What the top-level initialiser reads: the stored value is exactly the
      literal "granted"; any other value, or none, means not granted. */
  predicate StoredGrant(st: Storage): (granted: bool)
    ensures granted <==> AccessKey in st && st[AccessKey] == GrantedValue
  {
    GetItem(st, AccessKey) == Some(GrantedValue)
  }

  lemma OnlyTheExactLiteralGrants(st: Storage, other: string)
    requires other != GrantedValue
    ensures !StoredGrant(SetItem(st, AccessKey, other))
    ensures !StoredGrant(RemoveItem(st, AccessKey))
    ensures StoredGrant(SetItem(st, AccessKey, GrantedValue))
  {
  }

  /** Removing the key twice is removing it once. */
  lemma RemoveItemIdempotent(st: Storage, key: string)
    ensures RemoveItem(RemoveItem(st, key), key) == RemoveItem(st, key)
  {
  }

  // ---- Code comparison ----

  /** ASCII upper-casing of one character. */
  function UpperChar(c: char): (u: char)
    ensures !('a' <= u <= 'z')
    ensures u == c || ('a' <= c <= 'z' && u as int == c as int - 32)
  {
    if 'a' <= c <= 'z' then (c as int - 32) as char else c
  }

  function ToUpper(s: string): (r: string)
    ensures |r| == |s|
    ensures forall i :: 0 <= i < |s| ==> r[i] == UpperChar(s[i])
  {
    if s == [] then [] else [UpperChar(s[0])] + ToUpper(s[1..])
  }

  /** The gate's test of a submitted code. */
  predicate Accepts(code: string): (ok: bool)
    ensures ok ==> |code| == |InviteCode|
  {
    ToUpper(code) == InviteCode
  }

  /** A reference definition of case-insensitive equality with an
      upper-case secret: same length, and each character is the secret's
      or, for a letter, its lower-case form. */
  predicate MatchesIgnoringCase(code: string, secret: string)
  {
    && |code| == |secret|
    && forall i :: 0 <= i < |code| ==>
         code[i] == secret[i] || ('A' <= secret[i] <= 'Z' && code[i] as int == secret[i] as int + 32)
  }

  predicate NoLowerCase(s: string)
  {
    forall i :: 0 <= i < |s| ==> !('a' <= s[i] <= 'z')
  }

  lemma {:induction false} UpperMatchesIgnoringCase(code: string, secret: string)
    requires NoLowerCase(secret)
    ensures ToUpper(code) == secret <==> MatchesIgnoringCase(code, secret)
  {
    var up := ToUpper(code);
    if MatchesIgnoringCase(code, secret) {
      forall i | 0 <= i < |code| ensures up[i] == secret[i] {
        if code[i] != secret[i] {
          assert 'a' <= code[i] <= 'z';
        }
      }
    }
  }

  /** A code is accepted exactly when it spells the secret in any mix of
      letter cases. */
  lemma AcceptsIffMatchesIgnoringCase(code: string)
    ensures Accepts(code) <==> MatchesIgnoringCase(code, InviteCode)
  {
    UpperMatchesIgnoringCase(code, InviteCode);
  }

  lemma AcceptedAndRejectedCodes()
    ensures Accepts("upandup2025") && Accepts("UpAndUp2025") && Accepts(InviteCode)
    ensures !Accepts("UPANDUP2024") && !Accepts(" UPANDUP2025") && !Accepts("")
  {
    AcceptsIffMatchesIgnoringCase("upandup2025");
    AcceptsIffMatchesIgnoringCase("UpAndUp2025");
    AcceptsIffMatchesIgnoringCase(InviteCode);
    AcceptsIffMatchesIgnoringCase("UPANDUP2024");
    assert "UPANDUP2024"[10] != InviteCode[10];
    AcceptsIffMatchesIgnoringCase(" UPANDUP2025");
    assert " UPANDUP2025"[0] != InviteCode[0];
  }

  // ---- Components ----

  /** The login form: the typed code, the error line and the shake flag. */
  class LoginGate {
    var code: string
    var error: string
    var isShaking: bool

    constructor ()
      ensures code == "" && error == "" && !isShaking
    {
      code, error, isShaking := "", "", false;
    }

    /** Typing in the code field replaces the code and clears any error. */
    method OnChange(value: string)
      modifies this`code, this`error
      ensures code == value && error == ""
    {
      code := value;
      error := "";
    }

    /** Submitting the form. On a match the grant is stored and the parent
        is told; otherwise the error is shown and storage is left alone. */
    method HandleSubmit(app: App)
      requires app.Valid() && app.gate == this
      modifies this`error, this`isShaking, app
      ensures app.Valid()
      ensures Accepts(code) ==> && app.storage == SetItem(old(app.storage), AccessKey, GrantedValue)
                                && app.isAuthenticated
                                && fresh(app.deck) && app.deck.Valid() && app.deck.Initial()
                                && error == old(error) && isShaking == old(isShaking)
      ensures !Accepts(code) ==> && app.storage == old(app.storage)
                                 && app.isAuthenticated == old(app.isAuthenticated)
                                 && app.gate == this
                                 && error == InvalidCodeMessage && isShaking
    {
      if ToUpper(code) == InviteCode {
        app.storage := SetItem(app.storage, AccessKey, GrantedValue);
        app.SignalSuccess();
      } else {
        error := InvalidCodeMessage;
        isShaking := true;
      }
    }
  }

  /** The top-level component. Exactly one of the gate and the deck is
      mounted, chosen by `isAuthenticated`. */
  class App {
    var storage: Storage
    var isAuthenticated: bool
    var gate: LoginGate?
    var deck: PitchDeck?

    ghost predicate Valid()
      reads this
    {
      && (isAuthenticated <==> deck != null)
      && (isAuthenticated <==> gate == null)
    }

    /** Start-up (and every reload): the flag comes from storage. */
    constructor (persisted: Storage)
      ensures Valid()
      ensures storage == persisted && isAuthenticated == StoredGrant(persisted)
      ensures gate != null ==> fresh(gate) && gate.code == "" && gate.error == "" && !gate.isShaking
      ensures deck != null ==> fresh(deck) && deck.Valid() && deck.Initial()
    {
      storage := persisted;
      isAuthenticated := StoredGrant(persisted);
      if StoredGrant(persisted) {
        gate := null;
        deck := new PitchDeck();
      } else {
        gate := new LoginGate();
        deck := null;
      }
    }

    /** The gate's success callback: set the flag; if it changes, the gate
        is unmounted and a fresh deck mounted. */
    method SignalSuccess()
      requires Valid()
      modifies this`isAuthenticated, this`gate, this`deck
      ensures Valid() && isAuthenticated
      ensures !old(isAuthenticated) ==> fresh(deck) && deck.Valid() && deck.Initial()
      ensures old(isAuthenticated) ==> deck == old(deck)
    {
      if !isAuthenticated {
        isAuthenticated := true;
        gate := null;
        deck := new PitchDeck();
      }
    }

    /** The deck's exit button: remove the key and clear the flag. If the
        flag changes, the deck is unmounted and a fresh gate mounted. */
    method HandleLogout()
      requires Valid()
      modifies this
      ensures Valid() && !isAuthenticated
      ensures storage == RemoveItem(old(storage), AccessKey)
      ensures old(isAuthenticated) ==> fresh(gate) && gate.code == "" && gate.error == "" && !gate.isShaking
      ensures !old(isAuthenticated) ==> gate == old(gate)
    {
      storage := RemoveItem(storage, AccessKey);
      if isAuthenticated {
        isAuthenticated := false;
        deck := null;
        gate := new LoginGate();
      }
    }
  }

  // ---- Sessions across reloads ----

  /** Open the app on `persisted`, type `typed` into the gate if it is
      shown and submit it, then reload from what storage now holds. */
  method SubmitThenReload(persisted: Storage, typed: string) returns (before: bool, afterReload: bool)
    ensures before == (StoredGrant(persisted) || Accepts(typed))
    ensures afterReload == before
  {
    var app := new App(persisted);
    if app.gate != null {
      var gate := app.gate;
      gate.OnChange(typed);
      gate.HandleSubmit(app);
    }
    before := app.isAuthenticated;
    var reloaded := new App(app.storage);
    afterReload := reloaded.isAuthenticated;
  }

  /** Log out twice and reload: the session is gone, the second logout
      changes nothing, and every other stored entry survives. */
  method LogoutThenReload(persisted: Storage) returns (afterLogout: bool, afterReload: bool, once: Storage, twice: Storage)
    ensures !afterLogout && !afterReload
    ensures AccessKey !in once && twice == once
    ensures forall k :: k in persisted && k != AccessKey ==> k in once && once[k] == persisted[k]
  {
    var app := new App(persisted);
    app.HandleLogout();
    afterLogout := app.isAuthenticated;
    once := app.storage;
    app.HandleLogout();
    twice := app.storage;
    var reloaded := new App(once);
    afterReload := reloaded.isAuthenticated;
  }

  /** A rejected code changes neither the flag nor storage, and shows the
      error; typing afterwards clears it. */
  method RejectThenType(persisted: Storage, wrong: string, next: string)
    returns (authenticated: bool, stored: Storage, afterSubmit: string, afterTyping: string)
    requires !Accepts(wrong) && !StoredGrant(persisted)
    ensures !authenticated && stored == persisted
    ensures afterSubmit == InvalidCodeMessage && afterTyping == ""
  {
    var app := new App(persisted);
    var gate := app.gate;
    gate.OnChange(wrong);
    gate.HandleSubmit(app);
    authenticated, stored, afterSubmit := app.isAuthenticated, app.storage, gate.error;
    gate.OnChange(next);
    afterTyping := gate.error;
  }
}
