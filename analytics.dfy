/**
 * The analytics library: events with a fixed name and parameters, the
 * console line `track` logs for an event, with the parameters sorted by key
 * and rendered as `key: value`, and the enabled switch.
 */
module AnalyticsTracking {
  import opened Text

  datatype AnalyticsEvent =
    | ScreenView(name: string)
    | ButtonTap(name: string, screen: string)
    | RoundUpSaved(amount: int, goalName: string)
    | Navigation(from: string, to: string)
    | Error(errorType: string, message: string)
  {
    /** `name`. */
    function Name(): string {
      match this
      case ScreenView(_) => "screen_view"
      case ButtonTap(_, _) => "button_tap"
      case RoundUpSaved(_, _) => "round_up_saved"
      case Navigation(_, _) => "navigation"
      case Error(_, _) => "error"
    }

    /** `parameters`, in the order the dictionary literal lists them. */
    function Parameters(): seq<Param> {
      match this
      case ScreenView(name) => [Param("screen_name", Text(name))]
      case ButtonTap(name, screen) => [Param("button_name", Text(name)), Param("screen", Text(screen))]
      case RoundUpSaved(amount, goalName) => [Param("amount", Number(amount)), Param("goal_name", Text(goalName))]
      case Navigation(from, to) => [Param("from_screen", Text(from)), Param("to_screen", Text(to))]
      case Error(errorType, message) => [Param("error_type", Text(errorType)), Param("error_message", Text(message))]
    }
  }

  datatype ParamValue = Text(text: string) | Number(number: int)

  /** A dictionary entry. */
  datatype Param = Param(key: string, value: ParamValue)

  /** How string interpolation renders a value. */
  function Render(v: ParamValue): string {
    match v
    case Text(s) => s
    case Number(n) => IntToString(n)
  }

  /** No two entries share a key, as in a dictionary. */
  predicate DistinctKeys(ps: seq<Param>) {
    forall i, j :: 0 <= i < j < |ps| ==> ps[i].key != ps[j].key
  }

  /** String `<`: lexicographic by character, a proper prefix first. */
  predicate Less(a: string, b: string) {
    if a == [] then b != []
    else if b == [] then false
    else a[0] < b[0] || (a[0] == b[0] && Less(a[1..], b[1..]))
  }

  lemma {:induction false} LessIrreflexive(a: string)
    ensures !Less(a, a)
  {
    if a != [] {
      LessIrreflexive(a[1..]);
    }
  }

  lemma {:induction false} LessAsymmetric(a: string, b: string)
    ensures Less(a, b) ==> !Less(b, a)
  {
    if a != [] && b != [] && a[0] == b[0] {
      LessAsymmetric(a[1..], b[1..]);
    }
  }

  lemma {:induction false} LessTransitive(a: string, b: string, c: string)
    requires Less(a, b) && Less(b, c)
    ensures Less(a, c)
  {
    if a != [] && a[0] == b[0] && b[0] == c[0] {
      LessTransitive(a[1..], b[1..], c[1..]);
    }
  }

  lemma {:induction false} LessTotal(a: string, b: string)
    ensures a == b || Less(a, b) || Less(b, a)
  {
    if a != [] && b != [] && a[0] == b[0] {
      LessTotal(a[1..], b[1..]);
      if a[1..] == b[1..] {
        assert a == [a[0]] + a[1..] && b == [b[0]] + b[1..];
      }
    }
  }

  predicate SortedByKey(ps: seq<Param>) {
    forall i, j :: 0 <= i < j < |ps| ==> Less(ps[i].key, ps[j].key)
  }

  /** `p` inserted before the first entry with a greater key. */
  function Insert(p: Param, ps: seq<Param>): (r: seq<Param>)
    ensures multiset(r) == multiset(ps) + multiset{p}
    ensures |r| == |ps| + 1
  {
    if ps == [] || Less(p.key, ps[0].key) then [p] + ps
    else
      assert ps == [ps[0]] + ps[1..];
      [ps[0]] + Insert(p, ps[1..])
  }

  lemma {:induction false} InsertSorted(p: Param, ps: seq<Param>)
    requires SortedByKey(ps)
    requires forall i :: 0 <= i < |ps| ==> ps[i].key != p.key
    ensures SortedByKey(Insert(p, ps))
    ensures forall q :: q in Insert(p, ps) ==> q == p || q in ps
  {
    if ps == [] || Less(p.key, ps[0].key) {
      forall i | 0 <= i < |ps|
        ensures Less(p.key, ps[i].key)
      {
        if i > 0 {
          LessTransitive(p.key, ps[0].key, ps[i].key);
        }
      }
      var r := Insert(p, ps);
      assert r == [p] + ps;
      forall i, j | 0 <= i < j < |r|
        ensures Less(r[i].key, r[j].key)
      {
        assert r[j] == ps[j - 1];
        if i > 0 {
          assert r[i] == ps[i - 1];
        }
      }
    } else {
      InsertSorted(p, ps[1..]);
      var rest := Insert(p, ps[1..]);
      LessTotal(p.key, ps[0].key);
      forall q | q in rest
        ensures Less(ps[0].key, q.key)
      {
        if q != p {
          var k :| 0 <= k < |ps[1..]| && ps[1..][k] == q;
          assert ps[k + 1] == q;
        }
      }
      var r := Insert(p, ps);
      assert r == [ps[0]] + rest;
      forall i, j | 0 <= i < j < |r|
        ensures Less(r[i].key, r[j].key)
      {
        assert r[j] == rest[j - 1];
        if i > 0 {
          assert r[i] == rest[i - 1];
        }
      }
    }
  }

  /** `sorted { $0.key < $1.key }` by insertion. */
  function SortByKey(ps: seq<Param>): (r: seq<Param>)
    ensures multiset(r) == multiset(ps)
    ensures |r| == |ps|
  {
    if ps == [] then []
    else
      assert ps == [ps[0]] + ps[1..];
      Insert(ps[0], SortByKey(ps[1..]))
  }

  /** Entries with distinct keys come out in ascending key order. */
  lemma {:induction false} SortSorts(ps: seq<Param>)
    requires DistinctKeys(ps)
    ensures SortedByKey(SortByKey(ps))
  {
    if ps != [] {
      SortSorts(ps[1..]);
      var rest := SortByKey(ps[1..]);
      forall i | 0 <= i < |rest|
        ensures rest[i].key != ps[0].key
      {
        assert rest[i] in multiset(ps[1..]);
        var k :| 0 <= k < |ps[1..]| && ps[1..][k] == rest[i];
        assert ps[k + 1] == rest[i];
      }
      InsertSorted(ps[0], rest);
    }
  }

  /** Two key-sorted listings of the same entries are the same listing. */
  lemma {:induction false} SortedUnique(a: seq<Param>, b: seq<Param>)
    requires SortedByKey(a) && SortedByKey(b)
    requires multiset(a) == multiset(b)
    ensures a == b
  {
    if a != [] {
      assert b != [] by {
        assert a[0] in multiset(a);
      }
      SortedHeads(a, b);
      SameTails(a, b);
      SortedTail(a);
      SortedTail(b);
      SortedUnique(a[1..], b[1..]);
      assert a == [a[0]] + a[1..] && b == [b[0]] + b[1..];
    }
  }

  /** Key-sorted listings of the same entries start with the same entry. */
  lemma SortedHeads(a: seq<Param>, b: seq<Param>)
    requires SortedByKey(a) && SortedByKey(b) && a != [] && b != []
    requires multiset(a) == multiset(b)
    ensures a[0] == b[0]
  {
    if a[0] != b[0] {
      assert a[0] in multiset(b);
      var j :| 0 <= j < |b| && b[j] == a[0];
      assert b[0] in multiset(a);
      var k :| 0 <= k < |a| && a[k] == b[0];
      assert Less(b[0].key, a[0].key) && Less(a[0].key, b[0].key);
      LessAsymmetric(a[0].key, b[0].key);
      assert false;
    }
  }

  /** Removing the same first entry from listings of the same entries leaves the same entries. */
  lemma SameTails(a: seq<Param>, b: seq<Param>)
    requires a != [] && b != [] && a[0] == b[0]
    requires multiset(a) == multiset(b)
    ensures multiset(a[1..]) == multiset(b[1..])
  {
    assert a == [a[0]] + a[1..] && b == [b[0]] + b[1..];
    assert multiset(a) == multiset{a[0]} + multiset(a[1..]);
    assert multiset(b) == multiset{b[0]} + multiset(b[1..]);
    assert multiset(a[1..]) == multiset(a) - multiset{a[0]};
    assert multiset(b[1..]) == multiset(b) - multiset{b[0]};
  }

  lemma SortedTail(a: seq<Param>)
    requires SortedByKey(a) && a != []
    ensures SortedByKey(a[1..])
  {
    forall i, j | 0 <= i < j < |a| - 1
      ensures Less(a[1..][i].key, a[1..][j].key)
    {
      assert a[1..][i] == a[i + 1] && a[1..][j] == a[j + 1];
    }
  }

  /** The sorted listing does not depend on the order the dictionary yields its entries in. */
  lemma SortIgnoresOrder(ps: seq<Param>, qs: seq<Param>)
    requires DistinctKeys(ps) && multiset(ps) == multiset(qs)
    ensures SortByKey(ps) == SortByKey(qs)
  {
    SortSorts(ps);
    forall i, j | 0 <= i < j < |qs|
      ensures qs[i].key != qs[j].key
    {
      assert qs[i] in multiset(ps) && qs[j] in multiset(ps);
      var a :| 0 <= a < |ps| && ps[a] == qs[i];
      var b :| 0 <= b < |ps| && ps[b] == qs[j];
      if qs[i].key == qs[j].key {
        assert a == b;
        assert multiset(qs)[qs[i]] >= 2 by {
          assert qs == qs[..j] + qs[j..];
          assert multiset(qs) == multiset(qs[..j]) + multiset(qs[j..]);
          assert qs[..j][i] == qs[i] && qs[j..][0] == qs[i];
          assert qs[i] in multiset(qs[..j]) && qs[i] in multiset(qs[j..]);
        }
        DistinctCount(ps, a);
        assert false;
      }
    }
    SortSorts(qs);
    SortedUnique(SortByKey(ps), SortByKey(qs));
  }

  /** In a listing with distinct keys an entry occurs once. */
  lemma {:induction false} DistinctCount(ps: seq<Param>, a: nat)
    requires DistinctKeys(ps) && a < |ps|
    ensures multiset(ps)[ps[a]] == 1
  {
    if a == 0 {
      assert ps == [ps[0]] + ps[1..];
      assert ps[0] !in multiset(ps[1..]);
    } else {
      assert ps == [ps[0]] + ps[1..];
      assert DistinctKeys(ps[1..]);
      DistinctCount(ps[1..], a - 1);
      assert ps[0] != ps[a];
    }
  }

  function Entry(p: Param): string {
    p.key + ": " + Render(p.value)
  }

  const NoParameters: string := "no parameters"

  /** `formatEventData`: `key: value` for each entry in key order, joined by ", "; "no parameters" when that is empty. */
  function FormatEventData(ps: seq<Param>): string {
    var sorted := SortByKey(ps);
    var joined := Join(seq(|sorted|, i requires 0 <= i < |sorted| => Entry(sorted[i])), ", ");
    if joined == "" then NoParameters else joined
  }

  lemma {:induction false} JoinStartsWithFirst(parts: seq<string>, sep: string)
    requires parts != []
    ensures IsPrefix(parts[0], Join(parts, sep))
  {
  }

  /** The text is "no parameters" exactly when there are none; otherwise it starts with the smallest key and ": ". */
  lemma FormatEmpty(ps: seq<Param>)
    ensures FormatEventData(ps) == NoParameters <==> ps == []
    ensures ps != [] ==> IsPrefix(SortByKey(ps)[0].key + ": ", FormatEventData(ps))
  {
    var sorted := SortByKey(ps);
    var parts := seq(|sorted|, i requires 0 <= i < |sorted| => Entry(sorted[i]));
    var joined := Join(parts, ", ");
    assert FormatEventData(ps) == if joined == "" then NoParameters else joined;
    if ps != [] {
      var head := sorted[0].key + ": ";
      assert IsPrefix(head, joined) by {
        JoinStartsWithFirst(parts, ", ");
        assert parts[0] == head + Render(sorted[0].value);
        assert joined[..|head|] == parts[0][..|head|];
      }
      assert joined != "" && joined != NoParameters by {
        assert joined[|head| - 2] == ':';
        assert forall i :: 0 <= i < |NoParameters| ==> NoParameters[i] != ':';
      }
    }
  }

  /** Every event lists distinct keys, each under its documented name, with the event's values unchanged. */
  lemma ParametersOfEvents(event: AnalyticsEvent)
    ensures DistinctKeys(event.Parameters())
    ensures event.ScreenView? ==> event.Parameters() == [Param("screen_name", Text(event.name))]
    ensures event.RoundUpSaved? ==> (Param("amount", Number(event.amount)) in event.Parameters()
      && Param("goal_name", Text(event.goalName)) in event.Parameters() && |event.Parameters()| == 2)
    ensures event.ButtonTap? ==> (Param("button_name", Text(event.name)) in event.Parameters()
      && Param("screen", Text(event.screen)) in event.Parameters() && |event.Parameters()| == 2)
    ensures event.Navigation? ==> (Param("from_screen", Text(event.from)) in event.Parameters()
      && Param("to_screen", Text(event.to)) in event.Parameters() && |event.Parameters()| == 2)
    ensures event.Error? ==> (Param("error_type", Text(event.errorType)) in event.Parameters()
      && Param("error_message", Text(event.message)) in event.Parameters() && |event.Parameters()| == 2)
  {
  }

  /** The five names are distinct. */
  lemma NamesDistinct(a: AnalyticsEvent, b: AnalyticsEvent)
    ensures a.Name() == b.Name() <==> ((a.ScreenView? && b.ScreenView?) || (a.ButtonTap? && b.ButtonTap?)
      || (a.RoundUpSaved? && b.RoundUpSaved?) || (a.Navigation? && b.Navigation?) || (a.Error? && b.Error?))
  {
  }

  /** A shared prefix does not change the order. */
  lemma {:induction false} LessCommonPrefix(prefix: string, a: string, b: string)
    requires Less(a, b)
    ensures Less(prefix + a, prefix + b)
  {
    if prefix == [] {
      assert prefix + a == a && prefix + b == b;
    } else {
      LessCommonPrefix(prefix[1..], a, b);
      assert (prefix + a)[0] == prefix[0] == (prefix + b)[0];
      assert (prefix + a)[1..] == prefix[1..] + a;
      assert (prefix + b)[1..] == prefix[1..] + b;
    }
  }

  /** Two entries come out in key order, whichever order they are listed in. */
  lemma FormatTwo(p: Param, q: Param)
    requires Less(p.key, q.key)
    ensures FormatEventData([p, q]) == FormatEventData([q, p]) == Entry(p) + ", " + Entry(q)
  {
    LessAsymmetric(p.key, q.key);
    assert SortByKey([q]) == [q];
    assert [p, q][1..] == [q];
    assert SortByKey([p, q]) == [p, q];
    assert SortByKey([p]) == [p];
    assert [q, p][1..] == [p];
    assert SortByKey([q, p]) == [p, q];
    var parts := [Entry(p), Entry(q)];
    assert parts[1..] == [Entry(q)];
    assert Join(parts, ", ") == Entry(p) + ", " + Entry(q);
    assert seq(2, i requires 0 <= i < 2 => Entry([p, q][i])) == parts;
  }

  lemma FormatOne(p: Param)
    ensures FormatEventData([p]) == Entry(p)
  {
    assert SortByKey([p]) == [p];
    assert seq(1, i requires 0 <= i < 1 => Entry([p][i])) == [Entry(p)];
    assert Entry(p) != [] by {
      assert |Entry(p)| >= 2;
    }
  }

  /** Two entries joined, written out as text. */
  lemma PairText(k1: string, v1: ParamValue, k2: string, v2: ParamValue)
    ensures Entry(Param(k1, v1)) + ", " + Entry(Param(k2, v2)) == k1 + ": " + Render(v1) + ", " + k2 + ": " + Render(v2)
  {
  }

  /** The line for a screen view: its one entry. */
  lemma ScreenViewFormat(name: string)
    ensures FormatEventData(ScreenView(name).Parameters()) == "screen_name" + ": " + name
  {
    FormatOne(Param("screen_name", Text(name)));
  }

  /** A button tap lists its button before its screen. */
  lemma ButtonTapFormat(name: string, screen: string)
    ensures FormatEventData(ButtonTap(name, screen).Parameters()) == "button_name" + ": " + name + ", " + "screen" + ": " + screen
  {
    var b, s := Param("button_name", Text(name)), Param("screen", Text(screen));
    assert FormatEventData(ButtonTap(name, screen).Parameters()) == Entry(b) + ", " + Entry(s) by {
      assert Less("button_name", "screen");
      FormatTwo(b, s);
      assert ButtonTap(name, screen).Parameters() == [b, s];
    }
    PairText("button_name", Text(name), "screen", Text(screen));
  }

  /** A round-up lists its amount, in decimal, before its goal. */
  lemma RoundUpSavedFormat(amount: int, goalName: string)
    ensures FormatEventData(RoundUpSaved(amount, goalName).Parameters())
      == "amount" + ": " + IntToString(amount) + ", " + "goal_name" + ": " + goalName
  {
    var a, g := Param("amount", Number(amount)), Param("goal_name", Text(goalName));
    assert FormatEventData(RoundUpSaved(amount, goalName).Parameters()) == Entry(a) + ", " + Entry(g) by {
      assert Less("amount", "goal_name");
      FormatTwo(a, g);
      assert RoundUpSaved(amount, goalName).Parameters() == [a, g];
    }
    PairText("amount", Number(amount), "goal_name", Text(goalName));
  }

  /** A navigation lists where it came from before where it went. */
  lemma NavigationFormat(from: string, to: string)
    ensures FormatEventData(Navigation(from, to).Parameters()) == "from_screen" + ": " + from + ", " + "to_screen" + ": " + to
  {
    var f, t := Param("from_screen", Text(from)), Param("to_screen", Text(to));
    assert FormatEventData(Navigation(from, to).Parameters()) == Entry(f) + ", " + Entry(t) by {
      assert Less("from_screen", "to_screen");
      FormatTwo(f, t);
      assert Navigation(from, to).Parameters() == [f, t];
    }
    PairText("from_screen", Text(from), "to_screen", Text(to));
  }

  lemma ErrorKeysOrder()
    ensures Less("error_message", "error_type")
  {
    assert Less("message", "type");
    LessCommonPrefix("error_", "message", "type");
    assert "error_" + "message" == "error_message" && "error_" + "type" == "error_type";
  }

  /** An error lists its message before its type, although the event lists the type first. */
  lemma ErrorFormat(errorType: string, message: string)
    ensures FormatEventData(Error(errorType, message).Parameters())
      == "error_message" + ": " + message + ", " + "error_type" + ": " + errorType
  {
    var m, t := Param("error_message", Text(message)), Param("error_type", Text(errorType));
    assert FormatEventData(Error(errorType, message).Parameters()) == Entry(m) + ", " + Entry(t) by {
      ErrorKeysOrder();
      FormatTwo(m, t);
      assert Error(errorType, message).Parameters() == [t, m];
    }
    PairText("error_message", Text(message), "error_type", Text(errorType));
  }

  class Analytics {
    var isEnabled: bool
    /** Whether a logger was injected. */
    const hasLogger: bool

    /** `init(isEnabled:logger:)`, enabled unless told otherwise. */
    constructor(isEnabled: bool := true, hasLogger: bool := false)
      ensures this.isEnabled == isEnabled && this.hasLogger == hasLogger
    {
      this.isEnabled := isEnabled;
      this.hasLogger := hasLogger;
    }

    /** `track`: the line logged at info level, if any: none when disabled or without a logger. */
    function Track(event: AnalyticsEvent): (line: Option<string>)
      reads this
      ensures line.Some? <==> isEnabled && hasLogger
      ensures line.Some? ==>
        var header, data := "\U{1F4CA} [" + event.Name() + "] ", FormatEventData(event.Parameters());
        && IsPrefix(header, line.value)
        && IsSuffix(data, line.value)
        && |line.value| == |header| + |data|
    {
      if isEnabled && hasLogger then Some("\U{1F4CA} [" + event.Name() + "] " + FormatEventData(event.Parameters()))
      else None
    }
  }
}
