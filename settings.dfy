/**
 * The settings screen's session state: three boolean preferences held locally,
 * merged with the user's remote settings document on load, and written back one
 * key at a time whenever the user flips a switch.
 */
module Settings {
  import opened Wrappers

  /** The three setting keys. */
  datatype Key = DarkMode | Notifications | FabEnabled

  /** The local values of the three settings. */
  datatype Prefs = Prefs(darkMode: bool, notifications: bool, fabEnabled: bool)

  /** A settings document as read from the store; any key may be missing (`null` / `undefined`). */
  datatype RemoteSettings = RemoteSettings(darkMode: Option<bool>, notifications: Option<bool>, fabEnabled: Option<bool>)

  /** The signed-in user; an empty id counts as no id. */
  datatype User = User(id: string)

  /** How the remote read ended: a document (or `null`), or a thrown error. */
  datatype LoadOutcome = Fetched(doc: Option<RemoteSettings>) | FetchFailed

  /** How the remote single-key write ended. */
  datatype WriteOutcome = Written | WriteFailed

  /** A partial update `{ [key]: value }` addressed to one user's settings. */
  datatype SaveRequest = SaveRequest(userId: string, key: Key, value: bool)

  /** What the session does, in order: local changes by a handler or by a load, remote calls, the saving flag, alerts. */
  datatype Event =
    | LocalSet(key: Key, value: bool)
    | LoadRequested(userId: string)
    | SavingFlag(saving: bool)
    | SaveRequested(request: SaveRequest)
    | SaveAlert
    | ProfileUpdated(prefs: Prefs)

  function Get(p: Prefs, k: Key): bool {
    match k
    case DarkMode => p.darkMode
    case Notifications => p.notifications
    case FabEnabled => p.fabEnabled
  }

  /** `p` with key `k` set to `v`: exactly that key changes. */
  function With(p: Prefs, k: Key, v: bool): (r: Prefs)
    ensures Get(r, k) == v
    ensures forall k' :: k' != k ==> Get(r, k') == Get(p, k')
  {
    match k
    case DarkMode => p.(darkMode := v)
    case Notifications => p.(notifications := v)
    case FabEnabled => p.(fabEnabled := v)
  }

  function RemoteGet(doc: RemoteSettings, k: Key): Option<bool> {
    match k
    case DarkMode => doc.darkMode
    case Notifications => doc.notifications
    case FabEnabled => doc.fabEnabled
  }

  /** JavaScript's `a ?? b` for an optional value. */
  function Coalesce<T>(a: Option<T>, b: T): T {
    match a
    case Some(v) => v
    case None => b
  }

  /** The merge done on load: each key takes the remote value when present and keeps the local one otherwise. */
  function Merge(local: Prefs, doc: RemoteSettings): (r: Prefs)
    ensures doc == RemoteSettings(None, None, None) ==> r == local
    ensures doc.darkMode.Some? && doc.notifications.Some? && doc.fabEnabled.Some? ==>
      r == Prefs(doc.darkMode.value, doc.notifications.value, doc.fabEnabled.value)
  {
    Prefs(
      Coalesce(doc.darkMode, local.darkMode),
      Coalesce(doc.notifications, local.notifications),
      Coalesce(doc.fabEnabled, local.fabEnabled))
  }

  /** Key by key: a present remote value wins, a missing one keeps the local value. */
  lemma MergePerKey(local: Prefs, doc: RemoteSettings, k: Key)
    ensures RemoteGet(doc, k).Some? ==> Get(Merge(local, doc), k) == RemoteGet(doc, k).value
    ensures RemoteGet(doc, k).None? ==> Get(Merge(local, doc), k) == Get(local, k)
  {
  }

  /** Merging the same document twice is merging it once. */
  lemma MergeIdempotent(local: Prefs, doc: RemoteSettings)
    ensures Merge(Merge(local, doc), doc) == Merge(local, doc)
  {
  }

  /** The document holding only the key/value pair one save writes. */
  function SingleKey(k: Key, v: bool): (doc: RemoteSettings)
    ensures RemoteGet(doc, k) == Some(v)
    ensures forall k' :: k' != k ==> RemoteGet(doc, k').None?
  {
    match k
    case DarkMode => RemoteSettings(Some(v), None, None)
    case Notifications => RemoteSettings(None, Some(v), None)
    case FabEnabled => RemoteSettings(None, None, Some(v))
  }

  /** Loading back the partial document one save writes changes that key only: no cross-key clobbering. */
  lemma MergeSingleKeyIsChange(local: Prefs, k: Key, v: bool)
    ensures Merge(local, SingleKey(k, v)) == With(local, k, v)
  {
  }

  /** The guard `!user || !user.id`, turned round: the id a remote call is made for. */
  function UserIdOf(user: Option<User>): (r: Option<string>)
    ensures r.Some? <==> user.Some? && user.value.id != ""
    ensures r.Some? ==> r.value == user.value.id
  {
    match user
    case Some(u) => if u.id != "" then Some(u.id) else None
    case None => None
  }

  /** The events of one `saveSettings(key, value)` call. */
  function SaveEvents(userId: Option<string>, k: Key, v: bool, outcome: WriteOutcome): (t: seq<Event>)
    ensures userId.None? <==> t == []
    ensures userId.Some? ==> t[0] == SavingFlag(true) && t[|t| - 1] == SavingFlag(false)
    ensures SaveAlert in t <==> userId.Some? && outcome == WriteFailed
    ensures forall i :: 0 <= i < |t| && t[i].SaveRequested? ==>
      userId.Some? && t[i].request == SaveRequest(userId.value, k, v)
    ensures forall i :: 0 <= i < |t| ==> !t[i].LocalSet? && !t[i].ProfileUpdated?
  {
    match userId
    case None => []
    case Some(id) =>
      [SavingFlag(true), SaveRequested(SaveRequest(id, k, v))]
      + (if outcome == WriteFailed then [SaveAlert] else [])
      + [SavingFlag(false)]
  }

  /** The save requests in a trace, in order. */
  function SaveRequests(t: seq<Event>): (r: seq<SaveRequest>)
    ensures |r| <= |t|
    ensures forall q :: q in r ==> SaveRequested(q) in t
  {
    if t == [] then []
    else if t[0].SaveRequested? then [t[0].request] + SaveRequests(t[1..])
    else SaveRequests(t[1..])
  }

  lemma {:induction false} SaveRequestsAppend(t1: seq<Event>, t2: seq<Event>)
    ensures SaveRequests(t1 + t2) == SaveRequests(t1) + SaveRequests(t2)
  {
    if t1 == [] {
      assert t1 + t2 == t2;
    } else {
      assert (t1 + t2)[1..] == t1[1..] + t2;
      SaveRequestsAppend(t1[1..], t2);
    }
  }

  /** The events of one change handler: the local set, then the save the handler fires. */
  function ChangeEvents(userId: Option<string>, k: Key, v: bool, outcome: WriteOutcome): (t: seq<Event>)
    ensures |t| >= 1 && t[0] == LocalSet(k, v)
    ensures forall i :: 0 <= i < |t| && t[i].LocalSet? ==> i == 0
    ensures forall i :: 0 <= i < |t| && t[i].SaveRequested? ==>
      0 < i && t[i].request.key == k && t[i].request.value == v
  {
    [LocalSet(k, v)] + SaveEvents(userId, k, v, outcome)
  }

  /**
   * One change issues exactly one save request when the user has an id, carrying
   * the key and value just set locally, and none otherwise.
   */
  lemma ChangeSaveRequests(userId: Option<string>, k: Key, v: bool, outcome: WriteOutcome)
    ensures SaveRequests(ChangeEvents(userId, k, v, outcome)) ==
      if userId.Some? then [SaveRequest(userId.value, k, v)] else []
  {
    if userId.Some? {
      var alert: seq<Event> := if outcome == WriteFailed then [SaveAlert] else [];
      var t := [LocalSet(k, v), SavingFlag(true), SaveRequested(SaveRequest(userId.value, k, v))];
      assert ChangeEvents(userId, k, v, outcome) == t + (alert + [SavingFlag(false)]);
      SaveRequestsAppend(t, alert + [SavingFlag(false)]);
      SaveRequestsAppend(alert, [SavingFlag(false)]);
      assert SaveRequests(t) == [SaveRequest(userId.value, k, v)] by {
        var last := [SaveRequested(SaveRequest(userId.value, k, v))];
        assert last[1..] == [];
        assert SaveRequests(last) == [SaveRequest(userId.value, k, v)];
        assert t[1..][1..] == last;
        assert t[1..] == [SavingFlag(true)] + last;
      }
      assert SaveRequests(alert) == [];
      assert SaveRequests([SavingFlag(false)]) == [];
    }
  }

  /** The screen's session: the local preferences, the saving flag and a ghost trace of what it did. */
  class SettingsSession {
    var user: Option<User>
    var darkMode: bool
    var notifications: bool
    var fabEnabled: bool
    var isSaving: bool
    ghost var trace: seq<Event>

    constructor (user: Option<User>, initial: Prefs)
      ensures this.user == user && Local() == initial && !isSaving && trace == []
    {
      this.user := user;
      darkMode, notifications, fabEnabled := initial.darkMode, initial.notifications, initial.fabEnabled;
      isSaving := false;
      trace := [];
    }

    function Local(): Prefs
      reads this
    {
      Prefs(darkMode, notifications, fabEnabled)
    }

    function UserId(): Option<string>
      reads this
    {
      UserIdOf(user)
    }

    /**
     * `loadUserSettings`: without a user id nothing is read and nothing changes;
     * a document merges into the local values; `null` or a failed read leaves them as they were.
     */
    method LoadUserSettings(outcome: LoadOutcome)
      modifies this
      ensures user == old(user) && isSaving == old(isSaving)
      ensures UserId().None? ==> Local() == old(Local()) && trace == old(trace)
      ensures UserId().Some? && outcome.Fetched? && outcome.doc.Some? ==>
        && Local() == Merge(old(Local()), outcome.doc.value)
        && trace == old(trace) + [LoadRequested(UserId().value), ProfileUpdated(Local())]
      ensures UserId().Some? && (outcome.FetchFailed? || outcome.doc.None?) ==>
        Local() == old(Local()) && trace == old(trace) + [LoadRequested(UserId().value)]
    {
      var id := UserId();
      if id.None? {
        return;
      }
      trace := trace + [LoadRequested(id.value)];
      match outcome
      case FetchFailed =>
      case Fetched(doc) =>
        if doc.Some? {
          var merged := Merge(Local(), doc.value);
          darkMode, notifications, fabEnabled := merged.darkMode, merged.notifications, merged.fabEnabled;
          trace := trace + [ProfileUpdated(merged)];
        }
    }

    /**
     * `saveSettings(key, value)`: without a user id nothing happens; otherwise the
     * flag is raised, one partial write is requested, a failure raises an alert,
     * and the flag is lowered in every case. The local values are never touched.
     */
    method SaveSettings(k: Key, v: bool, outcome: WriteOutcome)
      modifies this
      ensures user == old(user) && Local() == old(Local())
      ensures trace == old(trace) + SaveEvents(UserId(), k, v, outcome)
      ensures UserId().Some? ==> !isSaving
      ensures UserId().None? ==> isSaving == old(isSaving)
    {
      var id := UserId();
      if id.None? {
        return;
      }
      isSaving := true;
      trace := trace + [SavingFlag(true), SaveRequested(SaveRequest(id.value, k, v))];
      if outcome == WriteFailed {
        trace := trace + [SaveAlert];
      }
      isSaving := false;
      trace := trace + [SavingFlag(false)];
    }

    /** Shared body of the three handlers: set the key locally, then save it; a failed save does not revert it. */
    method Change(k: Key, v: bool, outcome: WriteOutcome)
      modifies this
      ensures user == old(user) && Local() == With(old(Local()), k, v)
      ensures trace == old(trace) + ChangeEvents(UserId(), k, v, outcome)
      ensures UserId().Some? ==> !isSaving
      ensures UserId().None? ==> isSaving == old(isSaving)
    {
      match k {
        case DarkMode => darkMode := v;
        case Notifications => notifications := v;
        case FabEnabled => fabEnabled := v;
      }
      trace := trace + [LocalSet(k, v)];
      SaveSettings(k, v, outcome);
    }

    method HandleDarkModeChange(v: bool, outcome: WriteOutcome)
      modifies this
      ensures user == old(user)
      ensures darkMode == v && notifications == old(notifications) && fabEnabled == old(fabEnabled)
      ensures trace == old(trace) + ChangeEvents(UserId(), DarkMode, v, outcome)
      ensures UserId().Some? ==> !isSaving
      ensures UserId().None? ==> isSaving == old(isSaving)
    {
      Change(DarkMode, v, outcome);
    }

    method HandleNotificationsChange(v: bool, outcome: WriteOutcome)
      modifies this
      ensures user == old(user)
      ensures notifications == v && darkMode == old(darkMode) && fabEnabled == old(fabEnabled)
      ensures trace == old(trace) + ChangeEvents(UserId(), Notifications, v, outcome)
      ensures UserId().Some? ==> !isSaving
      ensures UserId().None? ==> isSaving == old(isSaving)
    {
      Change(Notifications, v, outcome);
    }

    method HandleFabEnabledChange(v: bool, outcome: WriteOutcome)
      modifies this
      ensures user == old(user)
      ensures fabEnabled == v && darkMode == old(darkMode) && notifications == old(notifications)
      ensures trace == old(trace) + ChangeEvents(UserId(), FabEnabled, v, outcome)
      ensures UserId().Some? ==> !isSaving
      ensures UserId().None? ==> isSaving == old(isSaving)
    {
      Change(FabEnabled, v, outcome);
    }

    /**
     * The load effect re-runs whenever the signed-in user changes: the session
     * takes the new user, then loads that user's settings.
     */
    method UserChanged(u: Option<User>, outcome: LoadOutcome)
      modifies this
      ensures user == u && isSaving == old(isSaving)
      ensures UserId().None? ==> Local() == old(Local()) && trace == old(trace)
      ensures UserId().Some? && outcome.Fetched? && outcome.doc.Some? ==>
        && Local() == Merge(old(Local()), outcome.doc.value)
        && trace == old(trace) + [LoadRequested(UserId().value), ProfileUpdated(Local())]
      ensures UserId().Some? && (outcome.FetchFailed? || outcome.doc.None?) ==>
        Local() == old(Local()) && trace == old(trace) + [LoadRequested(UserId().value)]
    {
      user := u;
      LoadUserSettings(outcome);
    }
  }
}
