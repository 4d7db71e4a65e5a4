/** The UI slice (src/store/slices/uiSlice.ts): the colour theme, which is persisted to
    `localStorage`, the global loading flag, the toast list and the four modal flags.
    `Date.now()` is the parameter `now`. */
module Ui {
  import opened Results
  import opened Text
  import opened Seqs
  import opened Types
  import opened Storage

  datatype Theme = Light | Dark

  /** The string stored under the `theme` key. */
  function ThemeName(t: Theme): (name: string)
    ensures name == "light" || name == "dark"
  {
    match t
    case Light => "light"
    case Dark => "dark"
  }

  datatype ModalKey = CreatePost | EditProfile | Followers | Following

  datatype Modals = Modals(createPost: bool, editProfile: bool, followers: bool, following: bool) {

    function Get(k: ModalKey): bool {
      match k
      case CreatePost => createPost
      case EditProfile => editProfile
      case Followers => followers
      case Following => following
    }

    /** `state.modals[key] = value`. */
    function Set(k: ModalKey, value: bool): (r: Modals)
      ensures r.Get(k) == value
      ensures forall j :: j != k ==> r.Get(j) == Get(j)
    {
      match k
      case CreatePost => this.(createPost := value)
      case EditProfile => this.(editProfile := value)
      case Followers => this.(followers := value)
      case Following => this.(following := value)
    }
  }

  const AllClosed := Modals(false, false, false, false)

  datatype UiState = UiState(
    theme: Theme,
    isLoading: bool,
    notifications: seq<Notification>,
    modals: Modals)

  const InitialState := UiState(Light, false, [], AllClosed)

  /** The state together with the browser storage its theme reducers write to. */
  datatype Client = Client(state: UiState, storage: LocalStorage)

  /** The payload of `addNotification`: a notification without its id and creation time. */
  datatype Draft = Draft(kind: NoticeKind, title: string, message: string, duration: Option<int>)

  datatype Action =
    | SetTheme(theme: Theme)
    | ToggleTheme
    | SetGlobalLoading(loading: bool)
    | AddNotification(draft: Draft)
    | RemoveNotification(id: string)
    | ClearNotifications
    | OpenModal(key: ModalKey)
    | CloseModal(key: ModalKey)
    | CloseAllModals
    | ShowSuccess(title: string, message: string)
    | ShowError(title: string, message: string)
    | ShowWarning(title: string, message: string)
    | ShowInfo(title: string, message: string)

  // ---------------------------------------------------------------------------
  // Theme
  // ---------------------------------------------------------------------------

  /** The other theme. */
  function Flip(t: Theme): (u: Theme)
    ensures u != t
  {
    if t == Light then Dark else Light
  }

  /** `setTheme`: the theme is stored in the state and under the `theme` key. */
  function SetThemeIn(c: Client, t: Theme): (r: Client)
    ensures r.state.theme == t
    ensures Get(r.storage, ThemeKey) == Some(ThemeName(t))
    ensures forall k :: k != ThemeKey ==> Get(r.storage, k) == Get(c.storage, k)
    ensures r.state == c.state.(theme := t)
  {
    Client(c.state.(theme := t), Put(c.storage, ThemeKey, ThemeName(t)))
  }

  /** `toggleTheme`: light becomes dark and dark becomes light, and the new theme is
      persisted. */
  function ToggleThemeIn(c: Client): (r: Client)
    ensures r.state.theme != c.state.theme
    ensures Get(r.storage, ThemeKey) == Some(ThemeName(r.state.theme))
    ensures r.state.notifications == c.state.notifications && r.state.modals == c.state.modals
  {
    SetThemeIn(c, Flip(c.state.theme))
  }

  /** Toggling twice gives back the theme, and the stored name, of the first toggle's input. */
  lemma {:induction false} ToggleTwice(c: Client)
    ensures ToggleThemeIn(ToggleThemeIn(c)).state == c.state
    ensures Get(ToggleThemeIn(ToggleThemeIn(c)).storage, ThemeKey) == Some(ThemeName(c.state.theme))
  {
    var once := ToggleThemeIn(c);
    assert Flip(Flip(c.state.theme)) == c.state.theme;
  }

  // ---------------------------------------------------------------------------
  // Notifications
  // ---------------------------------------------------------------------------

  /** The notification an add or show action builds: id `Date.now().toString()`,
      creation time `now`. */
  function Stamp(d: Draft, now: int): (n: Notification)
    ensures n.id == IntToString(now) && n.createdAt == now
    ensures n.kind == d.kind && n.title == d.title && n.message == d.message && n.duration == d.duration
  {
    Notification(IntToString(now), d.kind, d.title, d.message, d.duration, now)
  }

  /** The display time each `show*Notification` gives its kind, in milliseconds. */
  function Duration(kind: NoticeKind): (ms: int)
    ensures kind == Error ==> ms == 7000
    ensures kind == Warning ==> ms == 6000
    ensures kind == Success || kind == Info ==> ms == 5000
  {
    match kind
    case Success => 5000
    case Error => 7000
    case Warning => 6000
    case Info => 5000
  }

  /** `state.notifications.push(notification)`. */
  function Push(ns: seq<Notification>, n: Notification): (r: seq<Notification>)
    ensures |r| == |ns| + 1 && r[..|ns|] == ns && r[|ns|] == n
  {
    ns + [n]
  }

  function NotId(id: string): Notification -> bool {
    (n: Notification) => n.id != id
  }

  /** `removeNotification`: every notification with the id goes; the rest stay, in order. */
  function RemoveId(ns: seq<Notification>, id: string): (r: seq<Notification>)
    ensures forall i :: 0 <= i < |r| ==> r[i].id != id
    ensures forall n :: n in ns && n.id != id ==> n in r
    ensures forall n :: n in r ==> n in ns
  {
    Filter(ns, NotId(id))
  }

  /** Removal works list-segment by list-segment, so the survivors keep their order. */
  lemma RemoveKeepsOrder(a: seq<Notification>, b: seq<Notification>, id: string)
    ensures RemoveId(a + b, id) == RemoveId(a, id) + RemoveId(b, id)
  {
    FilterAppend(a, b, NotId(id));
  }

  /** Removing an id nothing carries changes nothing. */
  lemma RemoveAbsent(ns: seq<Notification>, id: string)
    requires forall i :: 0 <= i < |ns| ==> ns[i].id != id
    ensures RemoveId(ns, id) == ns
  {
    FilterAll(ns, NotId(id));
  }

  /** Removing twice is removing once. */
  lemma RemoveIdempotent(ns: seq<Notification>, id: string)
    ensures RemoveId(RemoveId(ns, id), id) == RemoveId(ns, id)
  {
    RemoveAbsent(RemoveId(ns, id), id);
  }

  /** Dismissing a notification just added, whose id no earlier one shares, gives back
      the list before it. */
  lemma {:induction false} AddThenRemove(ns: seq<Notification>, d: Draft, now: int)
    requires forall i :: 0 <= i < |ns| ==> ns[i].id != IntToString(now)
    ensures RemoveId(Push(ns, Stamp(d, now)), IntToString(now)) == ns
  {
    var n := Stamp(d, now);
    RemoveKeepsOrder(ns, [n], n.id);
    RemoveAbsent(ns, n.id);
    assert RemoveId([n], n.id) == [] by {
      assert Filter([n], NotId(n.id)) == Filter([n][1..], NotId(n.id));
      assert [n][1..] == [];
    }
  }

  // ---------------------------------------------------------------------------
  // The reducer
  // ---------------------------------------------------------------------------

  /** The draft a `show*Notification` action builds, or the `addNotification` payload. */
  function DraftOf(a: Action): Option<Draft> {
    match a
    case AddNotification(d) => Some(d)
    case ShowSuccess(t, m) => Some(Draft(Success, t, m, Some(Duration(Success))))
    case ShowError(t, m) => Some(Draft(Error, t, m, Some(Duration(Error))))
    case ShowWarning(t, m) => Some(Draft(Warning, t, m, Some(Duration(Warning))))
    case ShowInfo(t, m) => Some(Draft(Info, t, m, Some(Duration(Info))))
    case _ => None
  }

  function Reduce(c: Client, a: Action, now: int): (r: Client)
    ensures a.OpenModal? ==> r.state.modals.Get(a.key)
    ensures a.CloseModal? ==> !r.state.modals.Get(a.key)
    ensures a.OpenModal? || a.CloseModal? ==>
      forall k :: k != a.key ==> r.state.modals.Get(k) == c.state.modals.Get(k)
    ensures a.CloseAllModals? ==> forall k :: !r.state.modals.Get(k)
    ensures a.ClearNotifications? ==> r.state.notifications == []
    ensures DraftOf(a).Some? ==>
      && |r.state.notifications| == |c.state.notifications| + 1
      && r.state.notifications[..|c.state.notifications|] == c.state.notifications
      && var n := r.state.notifications[|c.state.notifications|];
      && n.id == IntToString(now) && n.createdAt == now && n.kind == DraftOf(a).value.kind
      && n.title == DraftOf(a).value.title && n.message == DraftOf(a).value.message
    ensures a.AddNotification? ==> r.state.notifications[|c.state.notifications|].duration == a.draft.duration
    ensures a.ShowError? ==> r.state.notifications[|c.state.notifications|].duration == Some(7000)
    ensures a.ShowWarning? ==> r.state.notifications[|c.state.notifications|].duration == Some(6000)
    ensures a.ShowSuccess? || a.ShowInfo? ==> r.state.notifications[|c.state.notifications|].duration == Some(5000)
    ensures !(a.SetTheme? || a.ToggleTheme?) ==> r.storage == c.storage && r.state.theme == c.state.theme
  {
    var s := c.state;
    match a
    case SetTheme(t) => SetThemeIn(c, t)
    case ToggleTheme => ToggleThemeIn(c)
    case SetGlobalLoading(b) => c.(state := s.(isLoading := b))
    case RemoveNotification(id) => c.(state := s.(notifications := RemoveId(s.notifications, id)))
    case ClearNotifications => c.(state := s.(notifications := []))
    case OpenModal(k) => c.(state := s.(modals := s.modals.Set(k, true)))
    case CloseModal(k) => c.(state := s.(modals := s.modals.Set(k, false)))
    case CloseAllModals => c.(state := s.(modals := AllClosed))
    case _ =>
      var d := DraftOf(a).value;
      c.(state := s.(notifications := Push(s.notifications, Stamp(d, now))))
  }

  /** Closing every modal twice is closing them once, and after it no modal is open
      whatever was open before. */
  lemma {:induction false} CloseAllIdempotent(c: Client, now: int)
    ensures Reduce(Reduce(c, CloseAllModals, now), CloseAllModals, now) == Reduce(c, CloseAllModals, now)
    ensures Reduce(c, CloseAllModals, now).state.modals == AllClosed
  {
  }

  /** Opening then closing a modal gives back the flags the modal had closed. */
  lemma OpenThenClose(c: Client, k: ModalKey, now: int)
    requires !c.state.modals.Get(k)
    ensures Reduce(Reduce(c, OpenModal(k), now), CloseModal(k), now).state.modals == c.state.modals
  {
    var m := c.state.modals;
    var m2 := m.Set(k, true).Set(k, false);
    assert forall j :: m2.Get(j) == m.Get(j);
  }
}
