/** Report labels: what tells sibling groups that share a name apart. */
module ReportLabels {
  // ---- Numbers in decimal ----

  function Digit(d: nat): char
    requires d < 10
  {
    "0123456789"[d]
  }

  function Decimal(n: nat): (s: string)
    ensures s != []
  {
    if n < 10 then [Digit(n)] else Decimal(n / 10) + [Digit(n % 10)]
  }

  lemma {:induction false} DecimalInjective(a: nat, b: nat)
    requires Decimal(a) == Decimal(b)
    ensures a == b
  {
    var s, t := Decimal(a), Decimal(b);
    assert s[|s| - 1] == Digit(a % 10) && t[|t| - 1] == Digit(b % 10);
    if a >= 10 && b >= 10 {
      assert s[..|s| - 1] == Decimal(a / 10) && t[..|t| - 1] == Decimal(b / 10);
      DecimalInjective(a / 10, b / 10);
    }
  }

  /** The number a string of digits spells. */
  function Spelled(s: string): nat {
    if s == [] then 0 else 10 * Spelled(s[..|s| - 1]) + Worth(s[|s| - 1])
  }

  function Worth(c: char): nat {
    if '0' <= c <= '9' then c as nat - '0' as nat else 0
  }

  /** Decimal spells n, without a zero in front. */
  lemma {:induction false} DecimalSpells(n: nat)
    ensures Spelled(Decimal(n)) == n && (forall i :: 0 <= i < |Decimal(n)| ==> '0' <= Decimal(n)[i] <= '9')
    ensures n > 0 ==> Decimal(n)[0] != '0'
  {
    var s := Decimal(n);
    if n >= 10 {
      DecimalSpells(n / 10);
      assert s[..|s| - 1] == Decimal(n / 10) && s[|s| - 1] == Digit(n % 10);
    } else {
      assert s[..0] == [];
    }
  }

  // ---- Labels of sibling groups ----

  function Candidate(name: string, k: nat): string {
    name + "#" + Decimal(k)
  }

  lemma {:induction false} CandidatesDiffer(name: string, j: nat, k: nat)
    requires j != k
    ensures Candidate(name, j) != Candidate(name, k)
  {
    if Candidate(name, j) == Candidate(name, k) {
      var n := |name| + 1;
      assert Candidate(name, j)[n..] == Decimal(j) && Candidate(name, k)[n..] == Decimal(k);
      DecimalInjective(j, k);
    }
  }

  /** name#i for the smallest i from k on that is not used. */
  function FirstFree(name: string, k: nat, used: set<string>): string
    decreases |used|
  {
    if Candidate(name, k) in used then FirstFree(name, k + 1, used - {Candidate(name, k)})
    else Candidate(name, k)
  }

  lemma {:induction false} FirstFreeIsFree(name: string, k: nat, used: set<string>) returns (i: nat)
    ensures i >= k && FirstFree(name, k, used) == Candidate(name, i) && Candidate(name, i) !in used
    ensures forall j :: k <= j < i ==> Candidate(name, j) in used
    decreases |used|
  {
    if Candidate(name, k) in used {
      var rest := used - {Candidate(name, k)};
      i := FirstFreeIsFree(name, k + 1, rest);
      CandidatesDiffer(name, k, i);
    } else {
      i := k;
    }
  }

  function Elements(s: seq<string>): set<string> {
    set x | x in s
  }

  /** The label of sibling i, given those of its elder siblings: its own name
      when no elder has it, else its name with the smallest number that makes it
      no sibling's name and no elder's label. An unnamed group has no label. */
  function Label(names: seq<string>, elders: seq<string>): string
    requires |elders| < |names|
  {
    var n := names[|elders|];
    if n == "" || n !in names[..|elders|] then n
    else FirstFree(n, 2, Elements(names) + Elements(elders))
  }

  function LabelsUpTo(names: seq<string>, i: nat): (ls: seq<string>)
    requires i <= |names|
    ensures |ls| == i
  {
    if i == 0 then [] else
      var elders := LabelsUpTo(names, i - 1);
      elders + [Label(names, elders)]
  }

  function Labels(names: seq<string>): (ls: seq<string>)
    ensures |ls| == |names|
  {
    LabelsUpTo(names, |names|)
  }

  lemma {:induction false} LabelAtIndex(names: seq<string>, i: nat, n: nat)
    requires i < n <= |names|
    ensures LabelsUpTo(names, n)[..i] == LabelsUpTo(names, i)
    ensures LabelsUpTo(names, n)[i] == Label(names, LabelsUpTo(names, i))
  {
    if i < n - 1 { LabelAtIndex(names, i, n - 1); }
  }

  /** A label is the group's own name, or no sibling's name at all. */
  lemma {:induction false} LabelAvoidsNames(names: seq<string>, i: nat)
    requires i < |names|
    ensures names[i] !in names[..i] ==> Labels(names)[i] == names[i]
    ensures names[i] == "" ==> Labels(names)[i] == ""
    ensures names[i] != "" && names[i] in names[..i] ==>
              Labels(names)[i] !in names && Labels(names)[i] !in Labels(names)[..i]
    ensures names[i] != "" ==> Labels(names)[i] != ""
  {
    LabelAtIndex(names, i, |names|);
    if names[i] != "" && names[i] in names[..i] {
      var elders := LabelsUpTo(names, i);
      var k := FirstFreeIsFree(names[i], 2, Elements(names) + Elements(elders));
    }
  }

  /** The least number from 2 on that makes a label of no sibling's name and no
      elder's label. */
  ghost predicate LeastFree(names: seq<string>, elders: seq<string>, name: string, text: string, k: nat) {
    && k >= 2 && text == Candidate(name, k) && text !in names && text !in elders
    && forall j: nat :: 2 <= j < k ==> Candidate(name, j) in names || Candidate(name, j) in elders
  }

  /** What the label of sibling i is: its name if it is the first of that name, or
      has none, and else its name with that number. */
  ghost predicate LabelIs(names: seq<string>, labels: seq<string>, i: nat)
    requires i < |names| == |labels|
  {
    if names[i] == "" || names[i] !in names[..i] then labels[i] == names[i]
    else exists k: nat :: LeastFree(names, labels[..i], names[i], labels[i], k)
  }

  lemma {:induction false} LabelsAre(names: seq<string>)
    ensures forall i :: 0 <= i < |names| ==> LabelIs(names, Labels(names), i)
  {
    forall i | 0 <= i < |names| ensures LabelIs(names, Labels(names), i) {
      LabelAtIndex(names, i, |names|);
      var elders := LabelsUpTo(names, i);
      if names[i] != "" && names[i] in names[..i] {
        var k := FirstFreeIsFree(names[i], 2, Elements(names) + Elements(elders));
        hide FirstFree, LabelsUpTo;
        assert LeastFree(names, elders, names[i], Labels(names)[i], k);
      }
    }
  }

  /** No two siblings with names share a label. */
  lemma {:induction false} LabelsDiffer(names: seq<string>, i: nat, j: nat)
    requires i < j < |names| && names[i] != "" && names[j] != ""
    ensures Labels(names)[i] != Labels(names)[j]
  {
    LabelAvoidsNames(names, i);
    LabelAvoidsNames(names, j);
    if names[j] in names[..j] {
      assert Labels(names)[i] in Labels(names)[..j];
    } else {
      assert names[i] in names[..j];
    }
  }

  ghost predicate NoRepeats(names: seq<string>, n: nat)
    requires n <= |names|
  {
    forall i, j :: 0 <= i < j < n && names[j] != "" ==> names[i] != names[j]
  }

  lemma {:induction false} NoRepeatsNoChange(names: seq<string>, n: nat)
    requires n <= |names| && NoRepeats(names, n)
    ensures LabelsUpTo(names, n) == names[..n]
  {
    if n > 0 { NoRepeatsNoChange(names, n - 1); }
  }

  function Tally(counts: map<string, nat>, n: string): nat {
    if n in counts then counts[n] else 0
  }

  ghost predicate Tallied(counts: map<string, nat>, s: seq<string>) {
    forall n :: n != "" ==> (n in counts <==> n in s) && (n in counts ==> counts[n] > 0)
  }

  /** Whether a name repeats; unnamed groups never count. */
  method AnyRepeat(names: seq<string>) returns (dup: bool)
    ensures dup <==> !NoRepeats(names, |names|)
  {
    var counts: map<string, nat> := map[];
    dup := false;
    var i := 0;
    while i < |names|
      invariant 0 <= i <= |names| && Tallied(counts, names[..i])
      invariant forall n :: n in counts ==> n in names[..i]
      invariant dup <==> !NoRepeats(names, i)
    {
      var n := names[i];
      if n != "" {
        if Tally(counts, n) + 1 > 1 {
          var j :| 0 <= j < i && names[j] == n;
          dup := true;
        }
        counts := counts[n := Tally(counts, n) + 1];
      }
      i := i + 1;
    }
  }

  /** The label of each sibling group, with a map of those seen before. */
  method DisambiguateSiblingNames(names: seq<string>) returns (out: seq<string>)
    ensures out == Labels(names) && forall i :: 0 <= i < |names| ==> LabelIs(names, out, i)
  {
    LabelsAre(names);
    var dup := AnyRepeat(names);
    if |names| < 2 || !dup {
      NoRepeatsNoChange(names, |names|);
      return names;
    }
    var literal := Elements(names);
    var seen: map<string, nat> := map[];
    var taken: set<string> := {};
    out := [];
    while |out| < |names|
      invariant |out| <= |names| && out == LabelsUpTo(names, |out|)
      invariant Tallied(seen, names[..|out|])
      invariant taken == Elements(out) - {""}
    {
      var n := names[|out|];
      if n != "" { seen := seen[n := Tally(seen, n) + 1]; }
      if n == "" || seen[n] == 1 {
        out := out + [n];
      } else {
        var cand := NextFree(n, literal, taken, out);
        out := out + [cand];
      }
      if n != "" { taken := taken + {out[|out| - 1]}; }
    }
  }

  method NextFree(n: string, literal: set<string>, taken: set<string>, ghost elders: seq<string>)
    returns (cand: string)
    requires taken == Elements(elders) - {""}
    ensures cand == FirstFree(n, 2, literal + Elements(elders)) && cand != ""
  {
    var k := 2;
    ghost var used := literal + Elements(elders);
    ghost var rest := used;
    while true
      invariant k >= 2 && rest <= used && FirstFree(n, 2, used) == FirstFree(n, k, rest)
      invariant forall j :: j >= k ==> (Candidate(n, j) in used <==> Candidate(n, j) in rest)
      decreases |rest|
    {
      cand := Candidate(n, k);
      if cand !in literal && cand !in taken { return; }
      forall j | j > k ensures Candidate(n, j) != cand {
        CandidatesDiffer(n, k, j);
      }
      rest := rest - {cand};
      k := k + 1;
    }
  }
}
