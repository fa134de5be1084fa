/**
 * The admin dashboard: moderation of applications, what each role sees,
 * the plan editor, and the structured-article publisher with its chips,
 * keyword generation, mock image upload and delayed submission.
 */
module AdminDashboard {
  import opened Wrappers
  import opened Text
  import opened Sequences
  import opened Entities
  import opened DataContext

  // ----- moderation -----

  /** `handleApprove`: a live-slot application becomes upcoming, anything else is published as recorded. */
  function ApprovalStatus(t: Option<ApplicationType>): (s: Status)
    ensures s == Upcoming <==> t == Some(LiveType)
    ensures s == Recorded <==> t != Some(LiveType)
  {
    if t == Some(LiveType) then Upcoming else Recorded
  }

  /** The approve and reject buttons are offered to an admin on a pending row only. */
  predicate CanModerate(u: User, i: Interview)
  {
    u.role == Admin && i.status == Pending
  }

  /** A status update by id sets the status of the matching items and touches nothing else. */
  lemma StatusUpdateOnly(xs: seq<Interview>, id: string, s: Status)
    ensures var r := UpdatedById(xs, id, StatusPatch(s));
      |r| == |xs| && forall k :: 0 <= k < |xs| ==> r[k] == if xs[k].id == id then xs[k].(status := s) else xs[k]
  {
    forall k | 0 <= k < |xs| && xs[k].id == id
      ensures Merge(xs[k], StatusPatch(s)) == xs[k].(status := s)
    {
      MergeStatus(xs[k], s);
    }
  }

  /**
   * Moderation happens once: after an approve (which never sets pending)
   * or a reject, no row with that id offers the buttons again, whoever is
   * looking.
   */
  lemma ModerationIsFinal(u: User, xs: seq<Interview>, id: string, s: Status)
    requires s != Pending
    ensures var ys := UpdatedById(xs, id, StatusPatch(s));
      forall k :: 0 <= k < |ys| && ys[k].id == id ==> !CanModerate(u, ys[k])
  {
    StatusUpdateOnly(xs, id, s);
  }

  method Approve(store: Store, id: string, t: Option<ApplicationType>)
    modifies store
    ensures store.interviews == UpdatedById(old(store.interviews), id, StatusPatch(ApprovalStatus(t)))
    ensures store.currentUser == old(store.currentUser) && store.appSettings == old(store.appSettings)
  {
    store.UpdateInterview(id, StatusPatch(ApprovalStatus(t)));
  }

  method Reject(store: Store, id: string)
    modifies store
    ensures store.interviews == UpdatedById(old(store.interviews), id, StatusPatch(Rejected))
    ensures store.currentUser == old(store.currentUser) && store.appSettings == old(store.appSettings)
  {
    store.UpdateInterview(id, StatusPatch(Rejected));
  }

  /** The items whose founder name is `name`, in store order. */
  function ByFounder(xs: seq<Interview>, name: string): (r: seq<Interview>)
    ensures forall x :: x in r <==> x in xs && x.founderName == name
    ensures Subsequence(r, xs)
  {
    if xs == [] then []
    else
      var rest := ByFounder(xs[1..], name);
      assert xs == [xs[0]] + xs[1..];
      if xs[0].founderName == name then
        SubsequenceCons(xs[0], rest, xs[1..]);
        [xs[0]] + rest
      else
        SubsequenceSkip(xs[0], rest, xs[1..]);
        rest
  }

  /** The founder filter distributes over concatenation, so each of the founder's items keeps its multiplicity. */
  lemma {:induction false} ByFounderConcat(a: seq<Interview>, b: seq<Interview>, name: string)
    ensures ByFounder(a + b, name) == ByFounder(a, name) + ByFounder(b, name)
    decreases |a|
  {
    if a == [] {
      assert a + b == b;
    } else {
      assert (a + b)[0] == a[0] && (a + b)[1..] == a[1..] + b;
      ByFounderConcat(a[1..], b, name);
    }
  }

  /** `displayInterviews`: an admin sees every item; a founder sees their own, in store order. */
  function DisplayInterviews(u: User, xs: seq<Interview>): (r: seq<Interview>)
    ensures u.role == Admin ==> r == xs
    ensures u.role != Admin ==> Subsequence(r, xs)
    ensures u.role != Admin ==> forall x :: x in r <==> x in xs && x.founderName == u.name
    ensures u.role != Admin ==> r == ByFounder(xs, u.name)
  {
    if u.role == Admin then xs else ByFounder(xs, u.name)
  }

  /** `pendingCount`: the pending items of the whole store, whoever is looking. */
  function PendingCount(xs: seq<Interview>): (n: nat)
    ensures n <= |xs|
    ensures n == 0 <==> forall k :: 0 <= k < |xs| ==> xs[k].status != Pending
    ensures n == |xs| <==> forall k :: 0 <= k < |xs| ==> xs[k].status == Pending
  {
    if xs == [] then 0
    else (if xs[0].status == Pending then 1 else 0) + PendingCount(xs[1..])
  }

  /** Counting distributes over concatenation: each item adds one exactly when it is pending. */
  lemma {:induction false} PendingCountConcat(a: seq<Interview>, b: seq<Interview>)
    ensures PendingCount(a + b) == PendingCount(a) + PendingCount(b)
    ensures |a| == 1 ==> PendingCount(a) == if a[0].status == Pending then 1 else 0
    decreases |a|
  {
    if a == [] {
      assert a + b == b;
    } else {
      assert (a + b)[0] == a[0] && (a + b)[1..] == a[1..] + b;
      PendingCountConcat(a[1..], b);
    }
  }

  predicate UniqueIds(xs: seq<Interview>)
  {
    forall i, j :: 0 <= i < j < |xs| ==> xs[i].id != xs[j].id
  }

  /** Moderating one pending item (ids being unique) lowers the pending count by exactly one. */
  lemma {:induction false} ModerationLowersPending(xs: seq<Interview>, k: nat, s: Status)
    requires UniqueIds(xs) && k < |xs| && xs[k].status == Pending && s != Pending
    ensures PendingCount(UpdatedById(xs, xs[k].id, StatusPatch(s))) == PendingCount(xs) - 1
    decreases |xs|
  {
    var id := xs[k].id;
    var r := UpdatedById(xs, id, StatusPatch(s));
    StatusUpdateOnly(xs, id, s);
    assert r == [r[0]] + r[1..];
    assert r[1..] == UpdatedById(xs[1..], id, StatusPatch(s));
    if k == 0 {
      UpdateAbsentId(xs[1..], id, StatusPatch(s));
    } else {
      assert xs[1..][k - 1] == xs[k];
      ModerationLowersPending(xs[1..], k - 1, s);
    }
  }

  /** The dashboard as mounted: signed-out visitors are sent to the sign-in page. */
  datatype DashboardView =
    | RedirectToAuth
    | Dashboard(isAdmin: bool, rows: seq<Interview>, pendingCount: nat)

  function ViewDashboard(currentUser: Option<User>, xs: seq<Interview>): (v: DashboardView)
    ensures currentUser.None? <==> v.RedirectToAuth?
    ensures currentUser.Some? ==>
              v == Dashboard(currentUser.value.role == Admin,
                             DisplayInterviews(currentUser.value, xs), PendingCount(xs))
  {
    match currentUser
    case None => RedirectToAuth
    case Some(u) => Dashboard(u.role == Admin, DisplayInterviews(u, xs), PendingCount(xs))
  }

  /** The status label of a row; a live item has none. */
  function StatusLabel(s: Status): (r: Option<string>)
    ensures r.None? <==> s == Live
    ensures s == Pending ==> r == Some("Pending")
    ensures s == Upcoming ==> r == Some("Active")
    ensures s == Recorded ==> r == Some("Published")
    ensures s == Rejected ==> r == Some("Rejected")
  {
    match s
    case Pending => Some("Pending")
    case Upcoming => Some("Active")
    case Recorded => Some("Published")
    case Rejected => Some("Rejected")
    case Live => None
  }

  // ----- plan editor -----

  /** `updatePlan(id, u)`: the matching plans take the update, the others are kept. */
  function UpdatedPlan(ps: seq<SubscriptionPlan>, id: string, u: PlanPatch): (r: seq<SubscriptionPlan>)
    ensures |r| == |ps|
    ensures forall k :: 0 <= k < |ps| && ps[k].id == id ==> r[k] == MergePlan(ps[k], u)
    ensures forall k :: 0 <= k < |ps| && ps[k].id != id ==> r[k] == ps[k]
  {
    if ps == [] then []
    else [if ps[0].id == id then MergePlan(ps[0], u) else ps[0]] + UpdatedPlan(ps[1..], id, u)
  }

  /** A plan update that does not change the id is idempotent. */
  lemma UpdatedPlanIdempotent(ps: seq<SubscriptionPlan>, id: string, u: PlanPatch)
    requires u.id.Keep? || u.id == Put(id)
    ensures UpdatedPlan(UpdatedPlan(ps, id, u), id, u) == UpdatedPlan(ps, id, u)
  {
    var once := UpdatedPlan(ps, id, u);
    var twice := UpdatedPlan(once, id, u);
    assert forall k :: 0 <= k < |ps| ==> twice[k] == once[k];
  }

  // ----- chips -----

  /** A chip click: a selected value is removed, any other value appended. */
  function Toggled(sel: seq<string>, v: string): (r: seq<string>)
    ensures v in sel ==> v !in r && forall w :: w != v ==> (w in r <==> w in sel)
    ensures v !in sel ==> r == sel + [v]
  {
    if v in sel then Remove(sel, v) else sel + [v]
  }

  /** Toggling a value twice, starting from unselected, restores the selection. */
  lemma ToggleTwice(sel: seq<string>, v: string)
    requires v !in sel
    ensures Toggled(Toggled(sel, v), v) == sel
  {
    RemoveAppended(sel, v);
  }

  /** The chips of one kind (categories or tags) and the custom-entry input. */
  datatype Chips = Chips(available: seq<string>, selected: seq<string>, input: string)

  /** Only offered chips are selected. */
  predicate SelectedOffered(c: Chips)
  {
    forall v :: v in c.selected ==> v in c.available
  }

  /** No duplicate chips, no duplicate selections, and only offered chips are selected. */
  predicate ChipsValid(c: Chips)
  {
    Distinct(c.available) && Distinct(c.selected) && SelectedOffered(c)
  }

  /** Clicking one of the offered chips. */
  function ToggleChip(c: Chips, v: string): (r: Chips)
    requires v in c.available
    ensures r.available == c.available && r.input == c.input
    ensures r.selected == Toggled(c.selected, v)
  {
    c.(selected := Toggled(c.selected, v))
  }

  /** Clicking an offered chip selects only offered chips, even when the chips hold duplicates. */
  lemma ToggleChipKeepsOffered(c: Chips, v: string)
    requires SelectedOffered(c) && v in c.available
    ensures SelectedOffered(ToggleChip(c, v))
  {
  }

  lemma ToggleChipKeepsValid(c: Chips, v: string)
    requires ChipsValid(c) && v in c.available
    ensures ChipsValid(ToggleChip(c, v))
  {
    if v in c.selected {
      RemoveDistinct(c.selected, v);
    }
  }

  /**
   * `addCategory` / `addTag` as the program writes them: the emptiness test
   * uses the trimmed input, but the duplicate test compares the untrimmed
   * input with the available chips.
   */
  function AddCustomAsWritten(c: Chips): (r: Chips)
    ensures Trim(c.input) == "" || c.input in c.available ==> r == c
    ensures Trim(c.input) != "" && c.input !in c.available ==>
              r == Chips(c.available + [Trim(c.input)], c.selected + [Trim(c.input)], "")
  {
    if Trim(c.input) != "" && c.input !in c.available then
      Chips(c.available + [Trim(c.input)], c.selected + [Trim(c.input)], "")
    else c
  }

  /**
   * The entry as written keeps the selection within the offered chips:
   * whatever it adds, it adds to both lists.
   */
  lemma AddCustomAsWrittenKeepsOffered(c: Chips)
    requires SelectedOffered(c)
    ensures SelectedOffered(AddCustomAsWritten(c))
  {
  }

  lemma TrimStartNews()
    ensures TrimStart("News") == "News"
  {
    assert "News"[0] == 'N';
  }

  lemma TrimStartSpaceNews()
    ensures TrimStart(" News") == TrimStart("News")
  {
    assert " News"[0] == ' ' && " News"[1..] == "News";
  }

  lemma TrimEndNews()
    ensures TrimEnd("News") == "News"
  {
    assert "News"[3] == 's';
  }

  lemma TrimLeadingSpace()
    ensures Trim(" News") == "News"
  {
    TrimStartSpaceNews();
    TrimStartNews();
    TrimEndNews();
  }

  /** `" News"` passes the untrimmed duplicate test and adds a second "News" chip. */
  lemma AddCustomAsWrittenDuplicates()
    ensures var c := Chips(["News"], [], " News");
      ChipsValid(c) && !ChipsValid(AddCustomAsWritten(c))
  {
    var c := Chips(["News"], [], " News");
    assert ChipsValid(c);
    TrimLeadingSpace();
    assert " News" !in c.available by {
      assert |" News"| == 5 && |"News"| == 4;
    }
    var dup: seq<string> := ["News", "News"];
    assert AddCustomAsWritten(c).available == dup;
    assert !Distinct(dup) by {
      assert dup[0] == dup[1];
    }
  }

  /** The custom-chip entry with the duplicate test on the trimmed value. */
  function AddCustom(c: Chips): (r: Chips)
    ensures Trim(c.input) == "" || Trim(c.input) in c.available ==> r == c
    ensures Trim(c.input) != "" && Trim(c.input) !in c.available ==>
              r == Chips(c.available + [Trim(c.input)], c.selected + [Trim(c.input)], "")
  {
    var v := Trim(c.input);
    if v != "" && v !in c.available then Chips(c.available + [v], c.selected + [v], "") else c
  }

  /** The corrected entry never creates a duplicate chip or selection. */
  lemma AddCustomKeepsValid(c: Chips)
    requires ChipsValid(c)
    ensures ChipsValid(AddCustom(c))
    ensures Trim(c.input) != "" ==> Trim(c.input) in AddCustom(c).available
  {
    var v := Trim(c.input);
    if v != "" && v !in c.available {
      assert v !in c.selected;
      AppendFresh(c.available, v);
      AppendFresh(c.selected, v);
      var r := AddCustom(c);
      assert forall w :: w in r.selected ==> w in c.selected || w == v;
    }
  }

  const InitialCategories: seq<string> := ["Article", "News", "Case Study", "Water Innovation"]
  const InitialTags: seq<string> := ["Sustainability", "Environment", "Clean Water", "Future Tech"]

  // ----- keyword generation -----

  /** `\w`: an ASCII letter, a digit or the underscore. */
  predicate IsWordChar(c: char)
  {
    'a' <= c <= 'z' || 'A' <= c <= 'Z' || '0' <= c <= '9' || c == '_'
  }

  predicate AllWord(w: string)
  {
    forall k :: 0 <= k < |w| ==> IsWordChar(w[k])
  }

  /** The length of the leading run of word characters. */
  function WordPrefix(s: string): (n: nat)
    ensures n <= |s|
    ensures s != [] && IsWordChar(s[0]) ==> 0 < n
  {
    if s == [] || !IsWordChar(s[0]) then 0 else WordPrefix(s[1..]) + 1
  }

  /** The leading run is all word characters and stops at a non-word character or the end. */
  lemma {:induction false} WordPrefixSpec(s: string)
    ensures var n := WordPrefix(s);
      AllWord(s[..n]) && (n < |s| ==> !IsWordChar(s[n]))
    decreases |s|
  {
    if s != [] && IsWordChar(s[0]) {
      var m := WordPrefix(s[1..]);
      WordPrefixSpec(s[1..]);
      assert s[..m + 1] == [s[0]] + s[1..][..m];
    }
  }

  lemma ContainsInSuffix(s: string, w: string, m: nat)
    requires m <= |s| && Contains(s[m..], w)
    ensures Contains(s, w)
  {
    OccursInSuffix(s, w, m);
    var i :| OccursAt(s[m..], w, i);
    assert OccursAt(s, w, i + m);
  }

  /** `s.match(/\w+/g)`: the runs of word characters, left to right. */
  function WordRuns(s: string): seq<string>
    decreases |s|
  {
    if s == [] then []
    else if !IsWordChar(s[0]) then WordRuns(s[1..])
    else
      var n := WordPrefix(s);
      [s[..n]] + WordRuns(s[n..])
  }

  /** Every listed run is a non-empty stretch of word characters found in the text. */
  lemma {:induction false} WordRunsSpec(s: string)
    ensures forall w :: w in WordRuns(s) ==> |w| > 0 && AllWord(w) && Contains(s, w)
    decreases |s|
  {
    if s == [] {
    } else if !IsWordChar(s[0]) {
      WordRunsSpec(s[1..]);
      forall w | w in WordRuns(s[1..]) ensures Contains(s, w) {
        ContainsInSuffix(s, w, 1);
      }
    } else {
      var n := WordPrefix(s);
      WordPrefixSpec(s);
      WordRunsSpec(s[n..]);
      forall w | w in WordRuns(s[n..]) ensures Contains(s, w) {
        ContainsInSuffix(s, w, n);
      }
      assert OccursAt(s, s[..n], 0);
    }
  }

  /** `s[i..i + n]` is a whole run of word characters: `\b\w+\b` matches there. */
  predicate MaximalRun(s: string, i: nat, n: nat)
  {
    && 0 < n && i + n <= |s| && AllWord(s[i..i + n])
    && (i == 0 || !IsWordChar(s[i - 1]))
    && (i + n == |s| || !IsWordChar(s[i + n]))
  }

  /** The leading run is exactly `k` long when `k` word characters are followed by a non-word one or the end. */
  lemma WordPrefixIs(s: string, k: nat)
    requires k <= |s| && AllWord(s[..k])
    requires k == |s| || !IsWordChar(s[k])
    ensures WordPrefix(s) == k
  {
    var n := WordPrefix(s);
    WordPrefixSpec(s);
    assert forall j :: 0 <= j < k ==> s[..k][j] == s[j];
    assert forall j :: 0 <= j < n ==> s[..n][j] == s[j];
  }

  /**
   * The runs of a text cut at a word boundary are the runs of the two
   * halves, one after the other: no run is lost, split or reordered.
   */
  lemma {:induction false} WordRunsConcat(a: string, b: string)
    requires a == [] || b == [] || !IsWordChar(a[|a| - 1]) || !IsWordChar(b[0])
    ensures WordRuns(a + b) == WordRuns(a) + WordRuns(b)
    decreases |a|
  {
    if a == [] {
      assert a + b == b;
    } else if !IsWordChar(a[0]) {
      SkipOfConcat(a, b);
      WordRunsConcat(a[1..], b);
    } else {
      var n := WordPrefix(a);
      FirstRunOfConcat(a, b);
      WordRunsConcat(a[n..], b);
    }
  }

  /** When `a` starts with a non-word character, both `a` and `a + b` skip it. */
  lemma SkipOfConcat(a: string, b: string)
    requires a != [] && !IsWordChar(a[0])
    requires b == [] || !IsWordChar(a[|a| - 1]) || !IsWordChar(b[0])
    ensures WordRuns(a + b) == WordRuns(a[1..] + b) && WordRuns(a) == WordRuns(a[1..])
    ensures a[1..] == [] || b == [] || !IsWordChar(a[1..][|a[1..]| - 1]) || !IsWordChar(b[0])
  {
    ConcatSlices(a, b, 1);
    assert (a + b)[0] == a[0];
    assert a[1..] == [] || a[1..][|a[1..]| - 1] == a[|a| - 1];
  }

  /** When `a` starts with a word character and ends at a boundary, `a + b` opens with the same run. */
  lemma FirstRunOfConcat(a: string, b: string)
    requires a != [] && IsWordChar(a[0])
    requires b == [] || !IsWordChar(a[|a| - 1]) || !IsWordChar(b[0])
    ensures var n := WordPrefix(a);
      && WordPrefix(a + b) == n && 0 < n
      && (a + b)[..n] == a[..n] && (a + b)[n..] == a[n..] + b
      && (a[n..] == [] || b == [] || !IsWordChar(a[n..][|a[n..]| - 1]) || !IsWordChar(b[0]))
      && WordRuns(a + b) == [a[..n]] + WordRuns(a[n..] + b)
      && WordRuns(a) == [a[..n]] + WordRuns(a[n..])
  {
    var n := WordPrefix(a);
    WordPrefixSpec(a);
    var c := a + b;
    ConcatSlices(a, b, n);
    assert n < |c| ==> !IsWordChar(c[n]) by {
      if n < |a| {
        assert c[n] == a[n];
      } else if n < |c| {
        assert a[..n][n - 1] == a[|a| - 1];
        assert c[n] == b[0];
      }
    }
    if n < |a| {
      assert a[n..][|a[n..]| - 1] == a[|a| - 1];
    }
    WordPrefixIs(c, n);
  }

  /** A whole run of word characters is a single run. */
  lemma WordRunsOfRun(w: string)
    requires w != [] && AllWord(w)
    ensures WordRuns(w) == [w]
  {
    assert w[..|w|] == w;
    WordPrefixIs(w, |w|);
  }

  /** Every whole run of the text is listed, after the runs before it and before the runs after it. */
  lemma WordRunsAround(s: string, i: nat, n: nat)
    requires MaximalRun(s, i, n)
    ensures WordRuns(s) == WordRuns(s[..i]) + [s[i..i + n]] + WordRuns(s[i + n..])
  {
    var w, after := s[i..i + n], s[i + n..];
    assert s == s[..i] + (w + after);
    WordRunsOfRun(w);
    WordRunsConcat(w, after);
    assert i > 0 ==> s[..i][i - 1] == s[i - 1];
    WordRunsConcat(s[..i], w + after);
  }

  /** The runs of five or more characters: the matches of `\b\w{5,}\b`. */
  function LongRuns(ws: seq<string>): (r: seq<string>)
    ensures forall w :: w in r <==> w in ws && |w| >= 5
    ensures Subsequence(r, ws)
  {
    if ws == [] then []
    else
      var rest := LongRuns(ws[1..]);
      assert ws == [ws[0]] + ws[1..];
      if |ws[0]| >= 5 then
        SubsequenceCons(ws[0], rest, ws[1..]);
        [ws[0]] + rest
      else
        SubsequenceSkip(ws[0], rest, ws[1..]);
        rest
  }

  /** The length filter distributes over concatenation, so each long run keeps its multiplicity and position. */
  lemma {:induction false} LongRunsConcat(a: seq<string>, b: seq<string>)
    ensures LongRuns(a + b) == LongRuns(a) + LongRuns(b)
    decreases |a|
  {
    if a == [] {
      assert a + b == b;
    } else {
      assert (a + b)[0] == a[0] && (a + b)[1..] == a[1..] + b;
      LongRunsConcat(a[1..], b);
    }
  }

  /** The lower-cased text the keywords are drawn from. */
  function KeywordSource(title: string, para1and2: string, para3: string): string
  {
    ToLower(title + " " + para1and2 + " " + para3)
  }

  /** `autoGenerateKeywords`: the first ten distinct long runs of the lower-cased text. */
  function GeneratedKeywords(title: string, para1and2: string, para3: string): seq<string>
  {
    Take(Dedupe(LongRuns(WordRuns(KeywordSource(title, para1and2, para3)))), 10)
  }

  lemma OccurrenceHasNoUpper(s: string, w: string)
    requires NoUpper(s) && Contains(s, w)
    ensures NoUpper(w)
  {
    var i :| OccursAt(s, w, i);
    assert forall k :: 0 <= k < |w| ==> w[k] == s[i + k];
  }

  /** The first ten of the distinct long runs, stated over the stages of the pipeline. */
  lemma KeywordStages(s: string, runs: seq<string>, long: seq<string>, all: seq<string>)
    requires NoUpper(s)
    requires forall w :: w in runs ==> |w| > 0 && AllWord(w) && Contains(s, w)
    requires forall w :: w in long <==> w in runs && |w| >= 5
    requires Distinct(all) && forall w :: w in all <==> w in long
    ensures var r := Take(all, 10);
      && |r| <= 10 && Distinct(r)
      && (forall w :: w in r ==> |w| >= 5 && AllWord(w) && NoUpper(w) && Contains(s, w))
      && (|all| <= 10 ==> forall w :: w in runs && |w| >= 5 ==> w in r)
  {
    TakeDistinct(all, 10);
    forall w | w in Take(all, 10)
      ensures NoUpper(w)
    {
      OccurrenceHasNoUpper(s, w);
    }
  }

  /** The keyword source holds no upper-case letter. */
  lemma KeywordSourceNoUpper(title: string, para1and2: string, para3: string)
    ensures NoUpper(KeywordSource(title, para1and2, para3))
  {
  }

  /**
   * What the generated keywords are: at most ten, no repeats, each a
   * lower-case run of at least five word characters found in the text, and
   * every distinct long run of the text is kept unless ten came before it.
   */
  lemma GeneratedKeywordsSpec(title: string, para1and2: string, para3: string)
    ensures var s := KeywordSource(title, para1and2, para3);
      var r := GeneratedKeywords(title, para1and2, para3);
      && |r| <= 10 && Distinct(r)
      && (forall w :: w in r ==> |w| >= 5 && AllWord(w) && NoUpper(w) && Contains(s, w))
      && (|Dedupe(LongRuns(WordRuns(s)))| <= 10 ==>
            forall w :: w in WordRuns(s) && |w| >= 5 ==> w in r)
  {
    var s := KeywordSource(title, para1and2, para3);
    KeywordSourceNoUpper(title, para1and2, para3);
    var runs := WordRuns(s);
    WordRunsSpec(s);
    var long := LongRuns(runs);
    KeywordStages(s, runs, long, Dedupe(long));
  }

  /**
   * The keywords keep first-occurrence order: a long run whose first
   * occurrence has `p` distinct long runs before it is keyword number `p`
   * when `p` is below ten, and is dropped otherwise.
   */
  lemma GeneratedKeywordsOrder(title: string, para1and2: string, para3: string)
    ensures var long := LongRuns(WordRuns(KeywordSource(title, para1and2, para3)));
      var r := GeneratedKeywords(title, para1and2, para3);
      forall w :: w in long ==>
        var p := |Dedupe(long[..FirstIndex(long, w)])|;
        (p < 10 ==> p < |r| && r[p] == w) && (10 <= p ==> w !in r)
  {
    var long := LongRuns(WordRuns(KeywordSource(title, para1and2, para3)));
    forall w | w in long
      ensures var p := |Dedupe(long[..FirstIndex(long, w)])|;
        (p < 10 ==> p < |Take(Dedupe(long), 10)| && Take(Dedupe(long), 10)[p] == w)
        && (10 <= p ==> w !in Take(Dedupe(long), 10))
    {
      TakeDedupePosition(long, 10, w);
    }
  }

  // ----- keyword assembly -----

  /** Filtering strings by truthiness: the non-empty ones, in order. */
  function NonEmpty(ws: seq<string>): seq<string>
  {
    if ws == [] then []
    else (if ws[0] != "" then [ws[0]] else []) + NonEmpty(ws[1..])
  }

  /** The filter keeps exactly the non-empty strings, in their original order. */
  lemma {:induction false} NonEmptySpec(ws: seq<string>)
    ensures forall w :: w in NonEmpty(ws) <==> w in ws && w != ""
    ensures Subsequence(NonEmpty(ws), ws)
  {
    if ws != [] {
      var rest := NonEmpty(ws[1..]);
      NonEmptySpec(ws[1..]);
      assert ws == [ws[0]] + ws[1..];
      if ws[0] != "" {
        assert NonEmpty(ws) == [ws[0]] + rest;
        SubsequenceCons(ws[0], rest, ws[1..]);
      } else {
        assert NonEmpty(ws) == rest;
        SubsequenceSkip(ws[0], rest, ws[1..]);
      }
    }
  }

  lemma {:induction false} NonEmptyConcat(a: seq<string>, b: seq<string>)
    ensures NonEmpty(a + b) == NonEmpty(a) + NonEmpty(b)
    decreases |a|
  {
    if a == [] {
      assert a + b == b;
    } else {
      assert (a + b)[1..] == a[1..] + b;
      NonEmptyConcat(a[1..], b);
    }
  }

  lemma {:induction false} NonEmptyKeepsNonEmpty(a: seq<string>)
    requires forall w :: w in a ==> w != ""
    ensures NonEmpty(a) == a
    decreases |a|
  {
    if a != [] {
      assert a == [a[0]] + a[1..];
      assert a[0] in a;
      assert forall w :: w in a[1..] ==> w in a;
      NonEmptyKeepsNonEmpty(a[1..]);
    }
  }

  /** Each entry trimmed, in place. */
  function TrimAll(ws: seq<string>): (r: seq<string>)
    ensures |r| == |ws| && forall k :: 0 <= k < |ws| ==> r[k] == Trim(ws[k])
  {
    seq(|ws|, k requires 0 <= k < |ws| => Trim(ws[k]))
  }

  /** The submitted keywords: the generated ones, then the trimmed comma-separated manual ones, blanks dropped. */
  function AllKeywords(generated: seq<string>, manual: string): seq<string>
  {
    NonEmpty(generated + TrimAll(Split(manual, ",")))
  }

  /**
   * The generated keywords come first, unchanged; after them come exactly
   * the non-blank trimmed manual entries, in order; no keyword is empty.
   */
  lemma AllKeywordsSpec(generated: seq<string>, manual: string)
    requires forall w :: w in generated ==> w != ""
    ensures var r := AllKeywords(generated, manual);
      && r == generated + NonEmpty(TrimAll(Split(manual, ",")))
      && (forall w :: w in r ==> w != "")
      && (forall p :: p in Split(manual, ",") && Trim(p) != "" ==> Trim(p) in r)
  {
    var pieces := TrimAll(Split(manual, ","));
    NonEmptyConcat(generated, pieces);
    NonEmptyKeepsNonEmpty(generated);
    NonEmptySpec(generated + pieces);
    NonEmptySpec(pieces);
    forall p | p in Split(manual, ",") && Trim(p) != ""
      ensures Trim(p) in NonEmpty(pieces)
    {
      var k :| 0 <= k < |Split(manual, ",")| && Split(manual, ",")[k] == p;
      assert pieces[k] == Trim(p);
    }
  }

  // ----- the article draft and its submission -----

  datatype ArticleDraft = ArticleDraft(
    title: string,
    author: string,
    company: string,
    readTime: string,
    para1and2: string,
    para3: string,
    displayOnHome: bool,
    manualKeywords: string,
    generatedKeywords: seq<string>,
    linkedinUrl: string,
    twitterUrl: string)

  const InitialDraft := ArticleDraft("", "", "", "5 min read", "", "", true, "", [], "", "")

  datatype UploadStatus = Waiting | Uploading | Completed | Failed

  /** An image of the draft; the browser file handle is not modelled. */
  datatype UploadingImage = UploadingImage(id: string, progress: int, url: Option<string>, status: UploadStatus)

  /** The first image's url, or the empty string. */
  function Thumbnail(images: seq<UploadingImage>): (t: string)
    ensures images == [] ==> t == ""
    ensures images != [] && images[0].url.Some? ==> t == images[0].url.value
    ensures images != [] && images[0].url.None? ==> t == ""
  {
    if images == [] then ""
    else match images[0].url
      case Some(u) => u
      case None => ""
  }

  const ImageMarker := "[IMAGE_MID]"

  /**
   * The article a submission publishes. `stamp` stands for the clock reading
   * in the id and `date` for the formatted date.
   */
  function NewArticle(
    d: ArticleDraft, images: seq<UploadingImage>, selectedTags: seq<string>,
    selectedCategories: seq<string>, stamp: string, date: string): Interview
  {
    Interview(
      "art-" + stamp, d.author, Some(d.author), Some(d.readTime), d.company,
      "Expert Contributor", "", None, None, d.title,
      Some(Take(d.para1and2, 160)),
      Some(d.para1and2 + "\n\n" + ImageMarker + "\n\n" + d.para3),
      Some(selectedTags + selectedCategories), Thumbnail(images), None,
      Horizontal, Recorded, ArticleCategory, 0, date,
      Some(AllKeywords(d.generatedKeywords, d.manualKeywords)), d.displayOnHome,
      Some(SocialLinks(None, None, None, Some(d.linkedinUrl), Some(d.twitterUrl))),
      None, None)
  }

  /**
   * The published article: a recorded article with no views, the draft's
   * title and author, the body as the opening paragraphs, the image marker
   * and the closing paragraph separated by blank lines, a description of
   * at most the first 160 characters of the opening, the selected tags
   * followed by the selected categories, and the assembled keywords.
   */
  lemma NewArticleSpec(
    d: ArticleDraft, images: seq<UploadingImage>, selectedTags: seq<string>,
    selectedCategories: seq<string>, stamp: string, date: string)
    ensures var a := NewArticle(d, images, selectedTags, selectedCategories, stamp, date);
      && a.id == "art-" + stamp && a.title == d.title && a.date == date
      && a.founderName == d.author && a.author == Some(d.author)
      && a.status == Recorded && a.category == ArticleCategory && a.views == 0
      && a.longContent == Some(d.para1and2 + "\n\n" + ImageMarker + "\n\n" + d.para3)
      && a.description.Some? && a.description.value <= d.para1and2 && |a.description.value| <= 160
      && (|d.para1and2| >= 160 ==> |a.description.value| == 160)
      && (|d.para1and2| <= 160 ==> a.description.value == d.para1and2)
      && a.tags == Some(selectedTags + selectedCategories)
      && a.metaKeywords == Some(AllKeywords(d.generatedKeywords, d.manualKeywords))
      && a.thumbnail == Thumbnail(images)
      && a.displayOnHome == d.displayOnHome
  {
  }

  const TooFewImagesAlert := "Please upload at least 3 images as required for the layout."

  // ----- the mock upload -----

  /**
   * `mockUploadFile`: every tick adds 20 to the progress and reports it,
   * stopping once 100 is reached; the result is the object URL of the file.
   */
  method MockUpload(objectUrl: string) returns (reports: seq<int>, url: string)
    ensures reports == [20, 40, 60, 80, 100]
    ensures url == objectUrl
  {
    var progress := 0;
    reports := [];
    var done := false;
    while !done
      invariant 0 <= progress <= 100 && progress % 20 == 0
      invariant |reports| == progress / 20
      invariant forall k :: 0 <= k < |reports| ==> reports[k] == 20 * (k + 1)
      invariant done <==> progress >= 100
      decreases 100 - progress
    {
      progress := progress + 20;
      reports := reports + [progress];
      if progress >= 100 {
        done := true;
      }
    }
    url := objectUrl;
  }

  /** The image with the id takes one of the three updates the upload makes; the others stay. */
  function WithImage(imgs: seq<UploadingImage>, id: string, status: UploadStatus, progress: Option<int>, url: Option<string>): (r: seq<UploadingImage>)
    ensures |r| == |imgs|
    ensures forall k :: 0 <= k < |imgs| && imgs[k].id != id ==> r[k] == imgs[k]
    ensures forall k :: 0 <= k < |imgs| && imgs[k].id == id ==>
              r[k] == UploadingImage(id, if progress.Some? then progress.value else imgs[k].progress,
                                     if url.Some? then url else imgs[k].url, status)
  {
    if imgs == [] then []
    else
      var u := imgs[0];
      [if u.id == id then UploadingImage(id, if progress.Some? then progress.value else u.progress,
                                          if url.Some? then url else u.url, status) else u]
      + WithImage(imgs[1..], id, status, progress, url)
  }

  predicate FreshImageIds(imgs: seq<UploadingImage>, ids: seq<string>)
  {
    && (forall i, j :: 0 <= i < j < |ids| ==> ids[i] != ids[j])
    && (forall k, j :: 0 <= k < |imgs| && 0 <= j < |ids| ==> imgs[k].id != ids[j])
  }

  /** `id` names the entry at `p` and no other. */
  predicate OnlyAt(imgs: seq<UploadingImage>, p: nat, id: string)
  {
    p < |imgs| && imgs[p].id == id && forall k :: 0 <= k < |imgs| && k != p ==> imgs[k].id != id
  }

  lemma WithImageAt(imgs: seq<UploadingImage>, p: nat, id: string, status: UploadStatus, progress: Option<int>, url: Option<string>)
    requires OnlyAt(imgs, p, id)
    ensures WithImage(imgs, id, status, progress, url) ==
              imgs[p := UploadingImage(id, if progress.Some? then progress.value else imgs[p].progress,
                                       if url.Some? then url else imgs[p].url, status)]
  {
  }

  /** The publisher's state. */
  class ArticleForm {
    var draft: ArticleDraft
    var images: seq<UploadingImage>
    var categories: Chips
    var tags: Chips
    var isSubmitting: bool
    /** Submissions whose delayed completion has not run yet. */
    var scheduled: seq<Interview>

    /**
     * What the form keeps: only offered chips are selected. Duplicate chips
     * can arise (see `AddCustomAsWrittenDuplicates`), so freedom from
     * repeats is not part of it.
     */
    ghost predicate Valid()
      reads this
    {
      SelectedOffered(categories) && SelectedOffered(tags)
    }

    constructor ()
      ensures Valid()
      ensures draft == InitialDraft && images == [] && !isSubmitting && scheduled == []
      ensures categories == Chips(InitialCategories, [], "") && tags == Chips(InitialTags, [], "")
    {
      draft := InitialDraft;
      images := [];
      categories := Chips(InitialCategories, [], "");
      tags := Chips(InitialTags, [], "");
      isSubmitting := false;
      scheduled := [];
    }

    /** A form field edit: the draft is replaced. */
    method EditDraft(d: ArticleDraft)
      modifies this
      ensures draft == d
      ensures images == old(images) && categories == old(categories) && tags == old(tags)
      ensures isSubmitting == old(isSubmitting) && scheduled == old(scheduled)
    {
      draft := d;
    }

    method GenerateKeywords()
      modifies this
      ensures draft == old(draft).(generatedKeywords := GeneratedKeywords(old(draft).title, old(draft).para1and2, old(draft).para3))
      ensures images == old(images) && categories == old(categories) && tags == old(tags)
      ensures isSubmitting == old(isSubmitting) && scheduled == old(scheduled)
    {
      draft := draft.(generatedKeywords := GeneratedKeywords(draft.title, draft.para1and2, draft.para3));
    }

    method ToggleCategory(v: string)
      requires Valid() && v in categories.available
      modifies this
      ensures Valid()
      ensures categories == ToggleChip(old(categories), v)
      ensures draft == old(draft) && images == old(images) && tags == old(tags)
      ensures isSubmitting == old(isSubmitting) && scheduled == old(scheduled)
    {
      ToggleChipKeepsOffered(categories, v);
      categories := ToggleChip(categories, v);
    }

    method ToggleTag(v: string)
      requires Valid() && v in tags.available
      modifies this
      ensures Valid()
      ensures tags == ToggleChip(old(tags), v)
      ensures draft == old(draft) && images == old(images) && categories == old(categories)
      ensures isSubmitting == old(isSubmitting) && scheduled == old(scheduled)
    {
      ToggleChipKeepsOffered(tags, v);
      tags := ToggleChip(tags, v);
    }

    method TypeCategory(input: string)
      modifies this
      ensures categories == old(categories).(input := input)
      ensures draft == old(draft) && images == old(images) && tags == old(tags)
      ensures isSubmitting == old(isSubmitting) && scheduled == old(scheduled)
    {
      categories := categories.(input := input);
    }

    method TypeTag(input: string)
      modifies this
      ensures tags == old(tags).(input := input)
      ensures draft == old(draft) && images == old(images) && categories == old(categories)
      ensures isSubmitting == old(isSubmitting) && scheduled == old(scheduled)
    {
      tags := tags.(input := input);
    }

    /** `addCategory`, with the untrimmed duplicate test of the program. */
    method AddCategory()
      requires Valid()
      modifies this
      ensures Valid()
      ensures categories == AddCustomAsWritten(old(categories))
      ensures draft == old(draft) && images == old(images) && tags == old(tags)
      ensures isSubmitting == old(isSubmitting) && scheduled == old(scheduled)
    {
      AddCustomAsWrittenKeepsOffered(categories);
      categories := AddCustomAsWritten(categories);
    }

    /** `addTag`, with the untrimmed duplicate test of the program. */
    method AddTag()
      requires Valid()
      modifies this
      ensures Valid()
      ensures tags == AddCustomAsWritten(old(tags))
      ensures draft == old(draft) && images == old(images) && categories == old(categories)
      ensures isSubmitting == old(isSubmitting) && scheduled == old(scheduled)
    {
      AddCustomAsWrittenKeepsOffered(tags);
      tags := AddCustomAsWritten(tags);
    }

    /**
     * `handleImageChange`: the chosen files are appended as waiting entries
     * and then uploaded one after another, each ending completed at 100% with
     * its object URL. `ids` stands for the random ids, `urls` for the object
     * URLs of the files.
     */
    method AddImages(ids: seq<string>, urls: seq<string>)
      requires |ids| == |urls| && FreshImageIds(images, ids)
      modifies this
      ensures |images| == |old(images)| + |ids|
      ensures images[..|old(images)|] == old(images)
      ensures forall j :: 0 <= j < |ids| ==>
                images[|old(images)| + j] == UploadingImage(ids[j], 100, Some(urls[j]), Completed)
      ensures draft == old(draft) && categories == old(categories) && tags == old(tags)
      ensures isSubmitting == old(isSubmitting) && scheduled == old(scheduled)
    {
      var base := |images|;
      var before := images;
      images := images + seq(|ids|, j requires 0 <= j < |ids| => UploadingImage(ids[j], 0, None, Waiting));
      for i := 0 to |ids|
        invariant |images| == base + |ids|
        invariant images[..base] == before
        invariant forall j :: 0 <= j < i ==> images[base + j] == UploadingImage(ids[j], 100, Some(urls[j]), Completed)
        invariant forall j :: i <= j < |ids| ==> images[base + j] == UploadingImage(ids[j], 0, None, Waiting)
        invariant draft == old(draft) && categories == old(categories) && tags == old(tags)
        invariant isSubmitting == old(isSubmitting) && scheduled == old(scheduled)
      {
        var p := base + i;
        forall k | 0 <= k < |images| && k != p
          ensures images[k].id != ids[i]
        {
          if k < base {
            assert images[k] == before[k];
          } else {
            assert images[k].id == ids[k - base];
          }
        }
        UploadOne(p, ids[i], urls[i]);
      }
    }

    /** One iteration of the upload loop: the entry goes uploading, reports its progress, then completes. */
    method UploadOne(p: nat, id: string, objectUrl: string)
      requires OnlyAt(images, p, id)
      modifies this
      ensures images == old(images)[p := UploadingImage(id, 100, Some(objectUrl), Completed)]
      ensures draft == old(draft) && categories == old(categories) && tags == old(tags)
      ensures isSubmitting == old(isSubmitting) && scheduled == old(scheduled)
    {
      WithImageAt(images, p, id, Uploading, None, None);
      images := WithImage(images, id, Uploading, None, None);
      var reports, url := MockUpload(objectUrl);
      ReportProgress(p, id, reports);
      WithImageAt(images, p, id, Completed, None, Some(url));
      images := WithImage(images, id, Completed, None, Some(url));
    }

    /** The progress callback, once per report. */
    method ReportProgress(p: nat, id: string, reports: seq<int>)
      requires OnlyAt(images, p, id) && reports != []
      modifies this
      ensures images == old(images)[p := old(images)[p].(progress := reports[|reports| - 1])]
      ensures draft == old(draft) && categories == old(categories) && tags == old(tags)
      ensures isSubmitting == old(isSubmitting) && scheduled == old(scheduled)
    {
      ghost var snap := images;
      for r := 0 to |reports|
        invariant images == snap[p := snap[p].(progress := if r == 0 then snap[p].progress else reports[r - 1])]
        invariant draft == old(draft) && categories == old(categories) && tags == old(tags)
        invariant isSubmitting == old(isSubmitting) && scheduled == old(scheduled)
      {
        WithImageAt(images, p, id, images[p].status, Some(reports[r]), None);
        images := WithImage(images, id, images[p].status, Some(reports[r]), None);
      }
    }

    /**
     * `handleSubmit`: fewer than three images gives the alert and changes
     * nothing; otherwise the form is marked submitting and the article is
     * scheduled for publication. `stamp` and `date` stand for the clock.
     */
    method Submit(stamp: string, date: string) returns (alert: Option<string>)
      modifies this
      ensures |old(images)| < 3 <==> alert.Some?
      ensures alert.Some? ==> alert.value == TooFewImagesAlert && isSubmitting == old(isSubmitting) && scheduled == old(scheduled)
      ensures alert.None? ==> isSubmitting
      ensures alert.None? ==>
                scheduled == old(scheduled + [NewArticle(draft, images, tags.selected, categories.selected, stamp, date)])
      ensures draft == old(draft) && images == old(images) && categories == old(categories) && tags == old(tags)
    {
      if |images| < 3 {
        alert := Some(TooFewImagesAlert);
      } else {
        scheduled := scheduled + [NewArticle(draft, images, tags.selected, categories.selected, stamp, date)];
        isSubmitting := true;
        alert := None;
      }
    }

    /**
     * The delayed completion of the oldest submission: the article is
     * prepended to the store, the form leaves the submitting state and the
     * images are cleared.
     */
    method CompleteSubmit(store: Store)
      requires scheduled != []
      modifies this, store
      ensures store.interviews == [old(scheduled)[0]] + old(store.interviews)
      ensures store.currentUser == old(store.currentUser) && store.appSettings == old(store.appSettings)
      ensures scheduled == old(scheduled)[1..] && !isSubmitting && images == []
      ensures draft == old(draft) && categories == old(categories) && tags == old(tags)
    {
      var article := scheduled[0];
      scheduled := scheduled[1..];
      store.AddInterview(article);
      isSubmitting := false;
      images := [];
    }
  }

  /** The publish button is enabled with at least three images and no submission under way. */
  function PublishEnabled(isSubmitting: bool, imageCount: nat): (r: bool)
    ensures r <==> !isSubmitting && imageCount >= 3
  {
    !(isSubmitting || imageCount < 3)
  }
}
