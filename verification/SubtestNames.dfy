/** Names for the subtests of a parallel run, told apart as the testing package
    would tell them apart. */
module SubtestNames {
  import opened Options
  import opened ReportLabels
  import opened Numbers
  import opened NumberTexts

  /** Counts are 32-bit numbers. */
  const COUNT_LIMIT: nat := 0x8000_0000

  function Count(counts: map<string, nat>, name: string): nat {
    if name in counts then counts[name] else 0
  }

  /** At least two digits. */
  function Padded(n: nat): string {
    if n < 10 then "0" + Decimal(n) else Decimal(n)
  }

  function Suffixed(name: string, n: nat): string {
    name + "#" + Padded(n)
  }

  /** The place after the last c, or 0. */
  function AfterLast(s: string, c: char): (i: nat)
    ensures i <= |s|
  {
    if s == "" then 0 else if s[|s| - 1] == c then |s| else AfterLast(s[..|s| - 1], c)
  }

  datatype Split = Split(prefix: string, number: nat)

  /** The prefix and the number of a name that ends in a number as written by
      Suffixed; otherwise the whole name. */
  function ParseNumber(s: string): (r: Split)
    ensures |r.prefix| <= |s|
  {
    var i := AfterLast(s, '#');
    if i == 0 then Split(s, 0)
    else
      var prefix, suffix := s[..i - 1], s[i..];
      if |suffix| < 2 || (|suffix| > 2 && suffix[0] == '0') then Split(s, 0)
      else if suffix == "00" && !(prefix != "" && prefix[|prefix| - 1] == '/') then Split(s, 0)
      else match IntegerOf(suffix)
        case None => Split(s, 0)
        case Some(n) => if n < 0 || n >= COUNT_LIMIT then Split(s, 0) else Split(prefix, n)
  }

  /** The name looks like one given for an earlier occurrence of its prefix. */
  predicate Taken(counts: map<string, nat>, name: string) {
    var p := ParseNumber(name);
    |p.prefix| < |name| && p.number < Count(counts, p.prefix)
  }

  // ---- Suffixes ----

  lemma {:induction false} PaddedDigits(n: nat)
    ensures AllDigits(Padded(n)) && |Padded(n)| >= 2 && Value(Padded(n)) == n
    ensures |Padded(n)| > 2 ==> Padded(n)[0] != '0'
    ensures Padded(n) == "00" ==> n == 0
  {
    DecimalDigits(n);
    if n < 10 {
      ValueConcat("0", Decimal(n));
      ZeroValue("0");
      assert Decimal(n) == [Digit(n)];
    } else {
      DecimalDigits(n / 10);
      assert Decimal(n) == Decimal(n / 10) + [Digit(n % 10)];
      if |Decimal(n)| == 2 && Decimal(n) == "00" { ZeroValue("00"); }
    }
  }

  lemma {:induction false} LastAt(a: string, c: char, b: string)
    requires c !in b
    ensures AfterLast(a + [c] + b, c) == |a| + 1
  {
    var s := a + [c] + b;
    if b == "" {
      assert s[|s| - 1] == c;
    } else {
      assert s[..|s| - 1] == a + [c] + b[..|b| - 1];
      assert s[|s| - 1] == b[|b| - 1] && b[|b| - 1] in b;
      LastAt(a, c, b[..|b| - 1]);
    }
  }

  /** A suffix is read back, except for number 0. */
  lemma {:induction false} SuffixRead(name: string, n: nat)
    requires 0 < n < COUNT_LIMIT
    ensures ParseNumber(Suffixed(name, n)) == Split(name, n) && |name| < |Suffixed(name, n)|
  {
    var s, d := Suffixed(name, n), Padded(n);
    PaddedDigits(n);
    DigitsHave(d, '#');
    LastAt(name, '#', d);
    assert s == name + ['#'] + d;
    assert s[..|name|] == name && s[|name| + 1..] == d;
    DigitsParsed(d);
    hide Padded, Value, AfterLast, IntegerOf;
  }

  lemma {:induction false} SuffixParts(a: string, n: nat) returns (s: string)
    ensures s == Suffixed(a, n) && AfterLast(s, '#') == |a| + 1 && |a| < |s|
    ensures s[..|a|] == a && s[|a| + 1..] == Padded(n)
  {
    var d := Padded(n);
    PaddedDigits(n);
    DigitsHave(d, '#');
    LastAt(a, '#', d);
    hide Padded;
    s := a + ['#'] + d;
    assert s[..|a|] == a && s[|a| + 1..] == d;
  }

  lemma {:induction false} SuffixesDiffer(a: string, n: nat, b: string, m: nat)
    requires Suffixed(a, n) == Suffixed(b, m)
    ensures a == b && n == m
  {
    hide *;
    PaddedDigits(n);
    PaddedDigits(m);
    var s := SuffixParts(a, n);
    var t := SuffixParts(b, m);
  }

  // ---- One name ----

  /** What a call returns and leaves: the name itself when it is new and not
      taken, or the next suffixed name nobody asked for by that name. */
  ghost predicate Given(counts: map<string, nat>, name: string, r: string, after: map<string, nat>) {
    && (forall k :: k != name ==> Count(after, k) == Count(counts, k)) && Count(after, name) > Count(counts, name)
    && if Count(counts, name) == 0 && name != "" && !Taken(counts, name) then r == name && Count(after, name) == 1
       else
         && r == Suffixed(name, Count(after, name) - 1) && Count(counts, r) == 0
         && (name != "" ==> Count(after, name) > 1)
         && forall n :: Count(counts, name) <= n < Count(after, name) - 1 && (n > 0 || name == "") ==>
             Count(counts, Suffixed(name, n)) != 0
  }

  lemma {:induction false} NotItself(name: string, n: nat)
    ensures Suffixed(name, n) != name
  {
    assert |Suffixed(name, n)| > |name|;
  }

  /** The numbers below the count were all asked for by name; the suffixed names
      not yet tried are waiting. */
  ghost predicate Trying(counts: map<string, nat>, after: map<string, nat>, name: string, waiting: set<string>) {
    && (forall k :: k != name ==> Count(after, k) == Count(counts, k)) && Count(after, name) >= Count(counts, name)
    && (forall n :: n >= Count(after, name) && Suffixed(name, n) in counts ==> Suffixed(name, n) in waiting)
    && (Count(after, name) > Count(counts, name) && Count(counts, name) == 0 && name != "" ==> Taken(counts, name))
    && (forall n :: Count(counts, name) <= n < Count(after, name) && (n > 0 || name == "") ==>
          Count(counts, Suffixed(name, n)) != 0)
  }

  lemma {:induction false} TryingFirst(counts: map<string, nat>, after: map<string, nat>, name: string,
      waiting: set<string>)
    requires Trying(counts, after, name, waiting) && Count(after, name) == 0 && name != ""
    ensures var next := after[name := 1];
            var p := ParseNumber(name);
            if |p.prefix| < |name| && p.number < Count(next, p.prefix) then Trying(counts, next, name, waiting)
            else Given(counts, name, name, next)
  {
    hide Suffixed, ParseNumber;
  }

  lemma {:induction false} TryingNext(counts: map<string, nat>, after: map<string, nat>, name: string,
      waiting: set<string>)
    requires Trying(counts, after, name, waiting) && (Count(after, name) != 0 || name == "")
    ensures var n := Count(after, name);
            var next, r := after[name := n + 1], Suffixed(name, n);
            && (Count(next, r) != 0 ==> r in waiting && Trying(counts, next, name, waiting - {r}))
            && (Count(next, r) == 0 ==> Given(counts, name, r, next))
  {
    var n := Count(after, name);
    var next, r := after[name := n + 1], Suffixed(name, n);
    NotItself(name, n);
    assert Count(next, name) == n + 1 && forall k :: k != name ==> Count(next, k) == Count(counts, k);
    hide Taken, Padded, ParseNumber;
    if Count(next, r) != 0 {
      assert r in counts;
      forall m | m > n && Suffixed(name, m) in counts ensures Suffixed(name, m) in waiting - {r} {
        if Suffixed(name, m) == r { SuffixesDiffer(name, m, name, n); }
      }
      hide Suffixed;
      forall m | Count(counts, name) <= m < n + 1 && (m > 0 || name == "")
        ensures Count(counts, Suffixed(name, m)) != 0
      {
        if m < n { assert Count(counts, Suffixed(name, m)) != 0; }
      }
    } else {
      hide Suffixed;
      forall m | Count(counts, name) <= m < n && (m > 0 || name == "") ensures Count(counts, Suffixed(name, m)) != 0 { }
    }
  }

  method UniqueSubtestName(counts: map<string, nat>, name: string) returns (r: string, after: map<string, nat>)
    ensures Given(counts, name, r, after)
  {
    after := counts;
    ghost var waiting := counts.Keys;
    assert Trying(counts, after, name, waiting);
    hide Trying, Given, Suffixed, ParseNumber;
    while true
      invariant Trying(counts, after, name, waiting)
      decreases |waiting|, if Count(after, name) == 0 then 1 else 0
    {
      var n := Count(after, name);
      if n == 0 && name != "" {
        TryingFirst(counts, after, name, waiting);
        after := after[name := n + 1];
        var p := ParseNumber(name);
        if |p.prefix| < |name| && p.number < Count(after, p.prefix) { continue; }
        return name, after;
      }
      TryingNext(counts, after, name, waiting);
      after := after[name := n + 1];
      var suffixed := Suffixed(name, n);
      if Count(after, suffixed) != 0 {
        waiting := waiting - {suffixed};
        continue;
      }
      return suffixed, after;
    }
  }

  // ---- Many names ----

  ghost predicate EndsInZero(name: string) {
    |ParseNumber(name).prefix| < |name| && ParseNumber(name).number == 0
  }

  /** What an empty name becomes first. */
  const UNNAMED: string := "#00"

  lemma {:induction false} UnnamedRead()
    ensures Suffixed("", 0) == UNNAMED && ParseNumber(UNNAMED) == Split(UNNAMED, 0) && !EndsInZero(UNNAMED)
  {
    assert Decimal(0) == "0" && Padded(0) == "00";
    assert "" + "#" + "00" == UNNAMED;
    assert AfterLast("", '#') == 0 && UNNAMED[..1] == "#" && UNNAMED[..2] == "#0";
    assert AfterLast(UNNAMED, '#') == AfterLast("#0", '#') == AfterLast("#", '#') == 1;
    assert UNNAMED[1..] == "00" && UNNAMED[..0] == "";
  }

  /** The suffixes given out begin at 1, but for the empty name. */
  lemma {:induction false} NoNewZero(counts: map<string, nat>, after: map<string, nat>, name: string, given: string)
    requires Given(counts, name, given, after) && NoOverflow(after) && !EndsInZero(name)
    ensures !EndsInZero(given)
  {
    var n := Count(after, name) - 1;
    if given != name || name == "" {
      assert n < COUNT_LIMIT;
      if n > 0 { SuffixRead(name, n); } else { UnnamedRead(); }
    }
    hide Suffixed, ParseNumber;
  }

  ghost predicate PairwiseDifferent(s: seq<string>) {
    forall i, j :: 0 <= i < j < |s| ==> s[i] != s[j]
  }

  ghost predicate NoOverflow(counts: map<string, nat>) {
    forall k :: Count(counts, k) < COUNT_LIMIT
  }

  /** Where a name given so far comes from: asked for by that name, or the
      suffixed name of an earlier occurrence or of an empty name. */
  ghost predicate Explained(counts: map<string, nat>, r: string, base: string, n: nat) {
    if n == 0 && base != "" then base == r && Count(counts, r) > 0
    else r == Suffixed(base, n) && n < Count(counts, base)
  }

  lemma {:induction false} StillExplained(counts: map<string, nat>, after: map<string, nat>, name: string,
    r: string, base: string, n: nat, given: string)
    requires Given(counts, name, given, after) && Explained(counts, r, base, n)
    ensures Explained(after, r, base, n)
  {
    hide Suffixed, Taken;
  }

  /** A name is given twice only where it is asked for after an empty name became
      it. */
  lemma {:induction false} NewName(counts: map<string, nat>, after: map<string, nat>, name: string,
    r: string, base: string, n: nat, given: string)
    requires Given(counts, name, given, after) && Explained(counts, r, base, n) && NoOverflow(counts)
    ensures r == given ==> base == "" && n == 0 && name == UNNAMED
  {
    if Count(counts, name) == 0 && name != "" && !Taken(counts, name) {
      if n > 0 && r == name { SuffixRead(base, n); }
      if n == 0 { UnnamedRead(); }
    } else if r == given && (n > 0 || base == "") {
      SuffixesDiffer(base, n, name, Count(after, name) - 1);
    }
    hide Suffixed, ParseNumber;
  }

  lemma {:induction false} GivenExplained(counts: map<string, nat>, after: map<string, nat>, name: string,
      given: string) returns (n: nat)
    requires Given(counts, name, given, after)
    ensures Explained(after, given, name, n)
    ensures name == "" && n == 0 ==> given == UNNAMED && Count(counts, UNNAMED) == 0
  {
    UnnamedRead();
    if given == name && name != "" && Count(counts, name) == 0 && !Taken(counts, name) {
      n := 0;
    } else {
      n := Count(after, name) - 1;
    }
    hide Suffixed, ParseNumber;
  }

  lemma {:induction false} GivenSomething(counts: map<string, nat>, after: map<string, nat>, name: string,
      given: string)
    requires Given(counts, name, given, after)
    ensures given != ""
  {
    hide Padded, ParseNumber;
  }

  /** The counts are above zero for what was asked for. */
  ghost predicate Asked(counts: map<string, nat>, names: seq<string>) {
    forall k :: Count(counts, k) > 0 <==> k in names
  }

  lemma {:induction false} OneMoreAsked(counts: map<string, nat>, after: map<string, nat>, names: seq<string>,
      i: nat, given: string)
    requires i < |names| && Asked(counts, names[..i]) && Given(counts, names[i], given, after)
    ensures Asked(after, names[..i + 1])
  {
    hide Suffixed, Taken;
    assert names[..i + 1] == names[..i] + [names[i]];
  }

  /** Where each of the names given so far comes from; an empty name became
      UNNAMED only where nothing had asked for that before. */
  ghost predicate AllExplained(counts: map<string, nat>, names: seq<string>, out: seq<string>, numbers: seq<nat>) {
    && |out| == |numbers| <= |names|
    && (forall j :: 0 <= j < |out| ==> Explained(counts, out[j], names[j], numbers[j]))
    && forall j :: 0 <= j < |out| && names[j] == "" && numbers[j] == 0 ==> UNNAMED !in names[..j]
  }

  lemma {:induction false} OneMoreExplained(before: map<string, nat>, counts: map<string, nat>, names: seq<string>,
      r: string, out: seq<string>, numbers: seq<nat>) returns (n: nat)
    requires |out| < |names| && Given(before, names[|out|], r, counts) && AllExplained(before, names, out, numbers)
    requires Asked(before, names[..|out|])
    ensures AllExplained(counts, names, out + [r], numbers + [n])
  {
    hide Given, Explained, Count;
    n := GivenExplained(before, counts, names[|out|], r);
    forall j | 0 <= j < |out| ensures Explained(counts, out[j], names[j], numbers[j]) {
      StillExplained(before, counts, names[|out|], out[j], names[j], numbers[j], r);
    }
  }

  // ---- The one clash ----

  /** An empty name, with UNNAMED asked for later but not before. */
  ghost predicate Clash(names: seq<string>) {
    exists i, j :: ClashAt(names, i, j)
  }

  ghost predicate ClashAt(names: seq<string>, i: int, j: int) {
    0 <= i < j < |names| && names[i] == "" && names[j] == UNNAMED && UNNAMED !in names[..i]
  }

  lemma {:induction false} StillNoClash(names: seq<string>, n: nat)
    requires n < |names| && !Clash(names[..n + 1])
    ensures !Clash(names[..n])
  {
    var s, t := names[..n], names[..n + 1];
    forall i, j | ClashAt(s, i, j) ensures false {
      assert t[..i] == s[..i];
      assert ClashAt(t, i, j);
    }
  }

  lemma {:induction false} NoClashAt(names: seq<string>, j: nat, i: nat)
    requires j < i < |names| && !Clash(names[..i + 1])
    ensures names[j] != "" || names[i] != UNNAMED || UNNAMED in names[..j]
  {
    var s := names[..i + 1];
    assert s[..j] == names[..j] && !ClashAt(s, j, i);
  }

  lemma {:induction false} NewAmongAll(before: map<string, nat>, counts: map<string, nat>, names: seq<string>,
      r: string, out: seq<string>, numbers: seq<nat>)
    requires |out| < |names| && Given(before, names[|out|], r, counts)
    requires AllExplained(before, names, out, numbers) && NoOverflow(before) && !Clash(names[..|out| + 1])
    ensures r !in out
  {
    hide Given, Explained, NoOverflow, Clash;
    var i := |out|;
    forall j | 0 <= j < |out| ensures out[j] != r {
      NewName(before, counts, names[i], out[j], names[j], numbers[j], r);
      NoClashAt(names, j, i);
    }
  }

  lemma {:induction false} OneMoreDiffers(out: seq<string>, r: string)
    requires PairwiseDifferent(out) && r !in out
    ensures PairwiseDifferent(out + [r])
  {
  }

  /** What the first empty name and the first UNNAMED are given. */
  ghost predicate FirstsGiven(names: seq<string>, out: seq<string>) {
    && |out| <= |names|
    && (forall j :: 0 <= j < |out| && names[j] == "" && "" !in names[..j] && UNNAMED !in names[..j] ==>
          out[j] == UNNAMED)
    && forall j :: 0 <= j < |out| && names[j] == UNNAMED && UNNAMED !in names[..j] ==> out[j] == UNNAMED
  }

  lemma {:induction false} UnnamedFirst(before: map<string, nat>, counts: map<string, nat>, name: string, r: string)
    requires Given(before, name, r, counts) && Count(before, UNNAMED) == 0
    requires name == UNNAMED || (name == "" && Count(before, "") == 0)
    ensures r == UNNAMED
  {
    hide Suffixed, ParseNumber, Count;
    UnnamedRead();
  }

  lemma {:induction false} OneMoreFirst(before: map<string, nat>, counts: map<string, nat>, names: seq<string>,
      r: string, out: seq<string>)
    requires |out| < |names| && Given(before, names[|out|], r, counts) && Asked(before, names[..|out|])
    requires FirstsGiven(names, out)
    ensures FirstsGiven(names, out + [r])
  {
    hide Given, Count;
    var name, elders := names[|out|], names[..|out|];
    if UNNAMED !in elders && (name == UNNAMED || (name == "" && "" !in elders)) {
      UnnamedFirst(before, counts, name, r);
    }
  }

  lemma {:induction false} FirstClash(names: seq<string>, i: nat, j: nat) returns (a: nat, b: nat)
    requires ClashAt(names, i, j)
    ensures ClashAt(names, a, b) && "" !in names[..a] && UNNAMED !in names[..b]
    decreases i + j
  {
    assert forall m :: 0 <= m < i ==> names[..i][m] == names[m];
    assert forall m :: 0 <= m < j ==> names[..j][m] == names[m];
    if "" in names[..i] {
      var k: nat :| k < i && names[..i][k] == "";
      assert names[..k] <= names[..i];
      a, b := FirstClash(names, k, j);
    } else if UNNAMED in names[..j] {
      var k: nat :| k < j && names[..j][k] == UNNAMED;
      a, b := FirstClash(names, i, k);
    } else {
      a, b := i, j;
    }
  }

  lemma {:induction false} ClashShows(names: seq<string>, out: seq<string>)
    requires |out| == |names| && FirstsGiven(names, out) && Clash(names)
    ensures !PairwiseDifferent(out)
  {
    var i: nat, j: nat :| ClashAt(names, i, j);
    var a, b := FirstClash(names, i, j);
    assert out[a] == out[b];
  }

  /** The names of a run, one after the other, empty ones among them. As long as
      no count overflows they are pairwise different unless UNNAMED is asked for
      after an empty name became it, none is empty, and none ends in number 0
      unless the name asked for does. */
  method UniqueNames(names: seq<string>) returns (out: seq<string>, counts: map<string, nat>)
    ensures |out| == |names| && (NoOverflow(counts) ==> (PairwiseDifferent(out) <==> !Clash(names)))
    ensures NoOverflow(counts) ==>
              forall i :: 0 <= i < |names| ==> (!EndsInZero(names[i]) ==> !EndsInZero(out[i])) && out[i] != ""
  {
    out, counts := [], map[];
    ghost var numbers: seq<nat> := [];
    hide Given, Explained, NoOverflow, EndsInZero, PairwiseDifferent, Clash, Asked, FirstsGiven, AllExplained;
    Nothing(names);
    for i := 0 to |names|
      invariant |out| == i && AllExplained(counts, names, out, numbers) && Asked(counts, names[..i])
      invariant FirstsGiven(names, out)
      invariant NoOverflow(counts) && !Clash(names[..i]) ==> PairwiseDifferent(out)
      invariant NoOverflow(counts) ==>
                  forall j :: 0 <= j < i ==> (!EndsInZero(names[j]) ==> !EndsInZero(out[j])) && out[j] != ""
    {
      ghost var before := counts;
      var r: string;
      r, counts := UniqueSubtestName(counts, names[i]);
      ghost var n := OneMoreExplained(before, counts, names, r, out, numbers);
      OneMoreFirst(before, counts, names, r, out);
      OneMoreAsked(before, counts, names, i, r);
      GivenSomething(before, counts, names[i], r);
      if NoOverflow(counts) {
        Smaller(before, counts, names[i], r);
        if !EndsInZero(names[i]) { NoNewZero(before, counts, names[i], r); }
        if !Clash(names[..i + 1]) {
          StillNoClash(names, i);
          NewAmongAll(before, counts, names, r, out, numbers);
          OneMoreDiffers(out, r);
        }
      }
      out, numbers := out + [r], numbers + [n];
    }
    assert names[..|names|] == names;
    if Clash(names) { ClashShows(names, out); }
  }

  lemma {:induction false} Nothing(names: seq<string>)
    ensures PairwiseDifferent([]) && AllExplained(map[], names, [], []) && Asked(map[], names[..0])
    ensures FirstsGiven(names, [])
  {
  }

  /** An empty name and a spec called "#00" get the same name. */
  method UnnamedClash() returns (out: seq<string>)
    ensures out == [UNNAMED, UNNAMED]
  {
    var r, counts := UniqueSubtestName(map[], "");
    UnnamedRead();
    assert Count(counts, "") == 1;
    var r', counts' := UniqueSubtestName(counts, UNNAMED);
    out := [r, r'];
  }

  lemma {:induction false} Smaller(counts: map<string, nat>, after: map<string, nat>, name: string, given: string)
    requires Given(counts, name, given, after) && NoOverflow(after)
    ensures NoOverflow(counts)
  {
    forall k ensures Count(counts, k) < COUNT_LIMIT { assert Count(after, k) < COUNT_LIMIT; }
  }

  // ---- Given again ----

  /** A name whose trailing number is 0 follows the one it is number 0 of. */
  ghost predicate NumberZero(names: seq<string>, i: nat, j: nat) {
    i < j < |names| && |names[i]| < |names[j]| && ParseNumber(names[j]) == Split(names[i], 0)
  }

  ghost predicate AnyNumberZero(names: seq<string>) {
    exists i: nat, j: nat :: NumberZero(names, i, j)
  }

  /** Each of the names given so far was asked for once. */
  ghost predicate OnceEach(counts: map<string, nat>, names: seq<string>, n: nat)
    requires n <= |names|
  {
    forall k :: Count(counts, k) == if k in names[..n] then 1 else 0
  }

  lemma {:induction false} TakenIsZero(counts: map<string, nat>, names: seq<string>, n: nat)
    requires n < |names| && OnceEach(counts, names, n)
    ensures Taken(counts, names[n]) <==> exists i: nat :: NumberZero(names, i, n)
  {
    var p := ParseNumber(names[n]);
    hide ParseNumber;
    if i: nat :| NumberZero(names, i, n) {
      assert names[..n][i] == p.prefix;
    }
    if Taken(counts, names[n]) {
      var i: nat :| i < n && names[..n][i] == p.prefix;
      assert NumberZero(names, i, n);
    }
  }

  lemma {:induction false} AsItIs(counts: map<string, nat>, names: seq<string>, n: nat, r: string,
      after: map<string, nat>)
    requires PairwiseDifferent(names) && n < |names| && names[n] != "" && OnceEach(counts, names, n)
    requires Given(counts, names[n], r, after)
    ensures r == names[n] <==> !exists i: nat :: NumberZero(names, i, n)
    ensures r == names[n] ==> OnceEach(after, names, n + 1)
  {
    TakenIsZero(counts, names, n);
    NotItself(names[n], Count(after, names[n]) - 1);
    hide Suffixed, Taken, NumberZero;
    assert names[n] !in names[..n];
    assert names[..n + 1] == names[..n] + [names[n]];
  }

  lemma {:induction false} NoneYet(names: seq<string>)
    ensures OnceEach(map[], names, 0)
    ensures forall i: nat, j: nat :: NumberZero(names, i, j) ==> 0 <= j < |names|
  {
  }

  /** Names that are pairwise different come back unchanged exactly when none of
      them is empty or number 0 of an earlier one. */
  method NamesAgain(names: seq<string>) returns (same: bool)
    requires PairwiseDifferent(names)
    ensures same <==> "" !in names && !AnyNumberZero(names)
  {
    same := true;
    var counts: map<string, nat> := map[];
    NoneYet(names);
    hide Given, OnceEach, NumberZero, PairwiseDifferent;
    for n := 0 to |names|
      invariant same && OnceEach(counts, names, n) && "" !in names[..n]
      invariant forall i: nat, j: nat :: NumberZero(names, i, j) ==> j >= n
    {
      ghost var before := counts;
      var r: string;
      r, counts := UniqueSubtestName(counts, names[n]);
      GivenSomething(before, counts, names[n], r);
      if names[n] != "" { AsItIs(before, names, n, r, counts); }
      if r != names[n] { return false; }
    }
    assert names[..|names|] == names;
  }

  /** Names that do not end in number 0 come back unchanged in any order. */
  lemma {:induction false} NoZeroNoClash(names: seq<string>)
    requires forall i :: 0 <= i < |names| ==> !EndsInZero(names[i])
    ensures !AnyNumberZero(names)
  {
  }
}
