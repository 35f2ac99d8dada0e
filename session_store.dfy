/**
 * The session store `useUIStore`: one mutable record whose mutators are
 * point updates of a few fields. `UIState` is the record as a value and
 * `Apply` says what each mutator does to it; the class `UIStore` holds the
 * fields and its methods perform the updates in place.
 */
module SessionStore {
  import opened Wrappers
  import opened Items

  /** DAILY_FREE: the quota a session starts with. */
  const DailyFree := 15

  /** `slice(0, 200)`: the history keeps the 200 most recent entries. */
  const HistoryLimit := 200

  datatype UIState = UIState(
    authOpen: bool,
    analysisItem: Option<AnalysisItem>,
    history: seq<AnalysisItem>,
    dailyRemaining: int,
    referralCredits: int,
    user: Option<User>,
    secureMode: bool)

  /** The store as `create` builds it. */
  const Initial := UIState(false, None, [], DailyFree, 0, None, false)

  /** What every reachable state satisfies. */
  predicate Inv(s: UIState) {
    0 <= s.dailyRemaining && 0 <= s.referralCredits && |s.history| <= HistoryLimit
  }

  /** `[i, ...history].slice(0, 200)`: the new entry first, then the old ones in order, at most 200 in all. */
  function Prepend(history: seq<AnalysisItem>, i: AnalysisItem): (r: seq<AnalysisItem>)
    ensures |r| == if |history| < HistoryLimit then |history| + 1 else HistoryLimit
    ensures r[0] == i
    ensures r[1..] == history[..|r| - 1]
  {
    var full := [i] + history;
    if |full| <= HistoryLimit then full else full[..HistoryLimit]
  }

  /** Prepending to a full history drops exactly its oldest (last) entry. */
  lemma PrependEvictsOldest(history: seq<AnalysisItem>, i: AnalysisItem)
    requires |history| == HistoryLimit
    ensures |Prepend(history, i)| == HistoryLimit
    ensures Prepend(history, i) == [i] + history[..HistoryLimit - 1]
  {
    var r := Prepend(history, i);
    assert r == [r[0]] + r[1..];
  }

  /** The store's mutators. */
  datatype Mutation =
    | SetAuthOpen(open: bool)
    | SetAnalysisItem(item: Option<AnalysisItem>)
    | AddHistory(entry: AnalysisItem)
    | DecrementQuota
    | AddReferralCredit
    | SetUser(newUser: Option<User>)
    | ToggleSecureMode

  /** The state after one mutator; each is a point update of its own fields. */
  function Apply(s: UIState, m: Mutation): (r: UIState)
    ensures Inv(s) ==> Inv(r)
    ensures r.referralCredits >= s.referralCredits
    ensures !m.AddHistory? ==> r.history == s.history
  {
    match m
    case SetAuthOpen(open) => s.(authOpen := open)
    case SetAnalysisItem(item) => s.(analysisItem := item)
    case AddHistory(entry) => s.(history := Prepend(s.history, entry))
    case DecrementQuota => s.(dailyRemaining := if s.dailyRemaining - 1 >= 0 then s.dailyRemaining - 1 else 0)
    case AddReferralCredit => s.(referralCredits := s.referralCredits + 1, dailyRemaining := s.dailyRemaining + 1)
    case SetUser(u) => s.(user := u)
    case ToggleSecureMode => s.(secureMode := !s.secureMode)
  }

  /** The state after a sequence of mutators, first to last. */
  function Run(s: UIState, ms: seq<Mutation>): UIState
    decreases |ms|
  {
    if ms == [] then s else Run(Apply(s, ms[0]), ms[1..])
  }

  /** The initial state is reachable-state safe, and every run of mutators keeps it so. */
  lemma {:induction false} RunKeepsInv(s: UIState, ms: seq<Mutation>)
    requires Inv(s)
    ensures Inv(Run(s, ms))
    decreases |ms|
  {
    if ms != [] {
      RunKeepsInv(Apply(s, ms[0]), ms[1..]);
    }
  }

  /** No mutator ever lowers `referralCredits`. */
  lemma {:induction false} CreditsNeverDecrease(s: UIState, ms: seq<Mutation>)
    ensures Run(s, ms).referralCredits >= s.referralCredits
    decreases |ms|
  {
    if ms != [] {
      CreditsNeverDecrease(Apply(s, ms[0]), ms[1..]);
    }
  }

  /** `n` referral events. */
  function Referrals(n: nat): (r: seq<Mutation>)
    ensures |r| == n && forall k :: 0 <= k < n ==> r[k] == AddReferralCredit
  {
    if n == 0 then [] else [AddReferralCredit] + Referrals(n - 1)
  }

  /** N referral credits add exactly N to both the credit counter and the quota, and nothing else. */
  lemma {:induction false} ReferralsAddN(s: UIState, n: nat)
    ensures Run(s, Referrals(n)) == s.(referralCredits := s.referralCredits + n, dailyRemaining := s.dailyRemaining + n)
    decreases n
  {
    if n > 0 {
      ReferralsAddN(Apply(s, AddReferralCredit), n - 1);
    }
  }

  /** decrementQuota is Math.max(0, remaining - 1): never negative, and a no-op at 0. */
  lemma DecrementFloors(s: UIState)
    requires Inv(s)
    ensures var r := Apply(s, DecrementQuota);
      r.dailyRemaining >= 0
      && (s.dailyRemaining > 0 ==> r.dailyRemaining == s.dailyRemaining - 1)
      && (s.dailyRemaining == 0 ==> r == s)
  {
  }

  /** Toggling secure mode twice restores the state. */
  lemma ToggleTwice(s: UIState)
    ensures Run(s, [ToggleSecureMode, ToggleSecureMode]) == s
  {
    assert [ToggleSecureMode, ToggleSecureMode][1..] == [ToggleSecureMode];
  }

  /**
   * The sign-in form's effect on the store: set the user, then close the
   * prompt. A `processing` placeholder stays as it was; it is not resumed.
   */
  lemma LoginKeepsPlaceholder(s: UIState, u: User)
    ensures Run(s, [SetUser(Some(u)), SetAuthOpen(false)]) == s.(user := Some(u), authOpen := false)
  {
    assert [SetUser(Some(u)), SetAuthOpen(false)][1..] == [SetAuthOpen(false)];
    assert [SetAuthOpen(false)][1..] == [];
  }

  /** The setters replace only their own field: history, quota and credits stay as they were. */
  lemma SettersArePointUpdates(s: UIState, m: Mutation)
    requires m.SetAnalysisItem? || m.SetUser? || m.SetAuthOpen?
    ensures var r := Apply(s, m);
      r.history == s.history && r.dailyRemaining == s.dailyRemaining && r.referralCredits == s.referralCredits
      && r.secureMode == s.secureMode
      && (m.SetAnalysisItem? ==> r == s.(analysisItem := m.item))
      && (m.SetUser? ==> r == s.(user := m.newUser))
      && (m.SetAuthOpen? ==> r == s.(authOpen := m.open))
  {
  }

  /** The store itself: its fields are updated in place by the mutators. */
  class UIStore {
    var authOpen: bool
    var analysisItem: Option<AnalysisItem>
    var history: seq<AnalysisItem>
    var dailyRemaining: int
    var referralCredits: int
    var user: Option<User>
    var secureMode: bool

    /** The fields as a value. */
    function State(): UIState
      reads this
    {
      UIState(authOpen, analysisItem, history, dailyRemaining, referralCredits, user, secureMode)
    }

    ghost predicate Valid()
      reads this
    {
      Inv(State())
    }

    constructor ()
      ensures Valid()
      ensures State() == Initial
      ensures dailyRemaining == 15 && referralCredits == 0 && history == []
      ensures analysisItem == None && user == None && !authOpen && !secureMode
    {
      authOpen := false;
      analysisItem := None;
      history := [];
      dailyRemaining := DailyFree;
      referralCredits := 0;
      user := None;
      secureMode := false;
    }

    method SetAuthOpen(v: bool)
      requires Valid()
      modifies this
      ensures Valid()
      ensures State() == old(State()).(authOpen := v)
      ensures State() == Apply(old(State()), Mutation.SetAuthOpen(v))
    {
      authOpen := v;
    }

    method SetAnalysisItem(i: Option<AnalysisItem>)
      requires Valid()
      modifies this
      ensures Valid()
      ensures State() == old(State()).(analysisItem := i)
      ensures State() == Apply(old(State()), Mutation.SetAnalysisItem(i))
    {
      analysisItem := i;
    }

    method AddHistory(i: AnalysisItem)
      requires Valid()
      modifies this
      ensures Valid()
      ensures history == Prepend(old(history), i)
      ensures State() == old(State()).(history := history)
      ensures State() == Apply(old(State()), Mutation.AddHistory(i))
    {
      var full := [i] + history;
      history := if |full| <= HistoryLimit then full else full[..HistoryLimit];
    }

    method DecrementQuota()
      requires Valid()
      modifies this
      ensures Valid()
      ensures dailyRemaining == if old(dailyRemaining) - 1 >= 0 then old(dailyRemaining) - 1 else 0
      ensures State() == old(State()).(dailyRemaining := dailyRemaining)
      ensures State() == Apply(old(State()), Mutation.DecrementQuota)
    {
      dailyRemaining := if dailyRemaining - 1 >= 0 then dailyRemaining - 1 else 0;
    }

    method AddReferralCredit()
      requires Valid()
      modifies this
      ensures Valid()
      ensures referralCredits == old(referralCredits) + 1 && dailyRemaining == old(dailyRemaining) + 1
      ensures State() == old(State()).(referralCredits := referralCredits, dailyRemaining := dailyRemaining)
      ensures State() == Apply(old(State()), Mutation.AddReferralCredit)
    {
      referralCredits, dailyRemaining := referralCredits + 1, dailyRemaining + 1;
    }

    method SetUser(u: Option<User>)
      requires Valid()
      modifies this
      ensures Valid()
      ensures State() == old(State()).(user := u)
      ensures State() == Apply(old(State()), Mutation.SetUser(u))
    {
      user := u;
    }

    method ToggleSecureMode()
      requires Valid()
      modifies this
      ensures Valid()
      ensures State() == old(State()).(secureMode := !old(secureMode))
      ensures State() == Apply(old(State()), Mutation.ToggleSecureMode)
    {
      secureMode := !secureMode;
    }
  }
}
