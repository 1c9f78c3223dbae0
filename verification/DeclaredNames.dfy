/** What two full names say of each other: names without a "/" can be read back. */
module DeclaredNames {
  import opened Suites
  import opened DeclaredSuites

  ghost predicate NoSlash(name: string) {
    forall i :: 0 <= i < |name| ==> name[i] != '/'
  }

  ghost predicate NoSlashes(names: seq<string>) {
    forall i :: 0 <= i < |names| ==> NoSlash(names[i])
  }

  /** Where the first scope with a name is, or how many there are. */
  function FirstNamed(names: seq<string>): (k: nat)
    ensures k <= |names| && (k < |names| ==> names[k] != "")
    ensures forall i :: 0 <= i < k ==> names[i] == ""
  {
    if names == [] || names[0] != "" then 0 else 1 + FirstNamed(names[1..])
  }

  lemma {:induction false} WidthFrom(names: seq<string>, k: nat)
    requires k <= |names| && forall i :: 0 <= i < k ==> names[i] == ""
    ensures Width(names[..k]) == 0
    decreases k
  {
    if k > 0 {
      assert names[..k][..k - 1] == names[..k - 1];
      WidthFrom(names, k - 1);
    }
  }

  lemma {:induction false} WidthsAdd(a: seq<string>, b: seq<string>)
    ensures Width(a + b) == Width(a) + Width(b)
    decreases |b|
  {
    if b == [] {
      assert a + b == a;
    } else {
      var n := |b| - 1;
      assert (a + b)[..|a| + n] == a + b[..n];
      WidthsAdd(a, b[..n]);
    }
  }

  lemma {:induction false} NamedFrom(names: seq<string>, k: nat)
    requires k <= |names| && forall i :: 0 <= i < k ==> names[i] == ""
    ensures Named(names) == Named(names[k..])
  {
    if k > 0 {
      NamedFrom(names[1..], k - 1);
      assert names[1..][k - 1..] == names[k..];
    }
  }

  lemma {:induction false} NamesParts(names: seq<string>, k: nat)
    requires k == FirstNamed(names)
    ensures Width(names[..k]) == 0
    ensures k == |names| ==> Width(names) == 0 && Named(names) == []
    ensures k < |names| ==>
              && Named(names) == [names[k]] + Named(names[k + 1..])
              && Width(names) == Width(names[..k + 1]) + Width(names[k + 1..])
  {
    WidthFrom(names, k);
    NamedFrom(names, k);
    if k == |names| {
      assert names[..k] == names && names[k..] == [];
    } else {
      assert names[k..][0] == names[k] && names[k..][1..] == names[k + 1..];
      assert names == names[..k + 1] + names[k + 1..];
      WidthsAdd(names[..k + 1], names[k + 1..]);
    }
    hide Width;
  }

  /** A breadcrumb begins with the first name there is. */
  lemma {:induction false} Peel(full: string, names: seq<string>, leaf: string) returns (k: nat)
    requires Breadcrumb(full, names, leaf)
    ensures k == FirstNamed(names)
    ensures k == |names| ==> full == leaf && Named(names) == []
    ensures k < |names| ==>
              && |names[k]| < |full| && full[..|names[k]| + 1] == names[k] + "/"
              && Breadcrumb(full[|names[k]| + 1..], names[k + 1..], leaf)
              && Named(names) == [names[k]] + Named(names[k + 1..])
  {
    hide *;
    k := FirstNamed(names);
    NamesParts(names, k);
    if k == |names| {
      OnlyLeaf(full, names, leaf);
    } else {
      NamePlaced(full, names, leaf, k);
      FirstWidth(full, names, k);
      PeelRest(full, names, leaf, k, |names[k]| + 1);
    }
  }

  lemma {:induction false} OnlyLeaf(full: string, names: seq<string>, leaf: string)
    requires Breadcrumb(full, names, leaf) && Width(names) == 0
    ensures full == leaf
  {
    assert full[0..0 + |leaf|] == full;
    hide Width;
  }

  lemma {:induction false} NamePlaced(full: string, names: seq<string>, leaf: string, k: nat)
    requires Breadcrumb(full, names, leaf) && k < |names| && names[k] != ""
    ensures AtPlace(full, Width(names[..k]), names[k] + "/")
  {
    hide Width, AtPlace;
  }

  lemma {:induction false} FirstWidth(full: string, names: seq<string>, k: nat)
    requires k < |names| && names[k] != "" && Width(names[..k]) == 0 && AtPlace(full, 0, names[k] + "/")
    ensures Width(names[..k + 1]) == |names[k]| + 1 && |names[k]| < |full| && full[..|names[k]| + 1] == names[k] + "/"
  {
    assert names[..k + 1][..k] == names[..k];
    assert full[..|names[k]| + 1] == full[0..0 + |names[k]| + 1];
  }

  lemma {:induction false} PeelRest(full: string, names: seq<string>, leaf: string, k: nat, cut: nat)
    requires Breadcrumb(full, names, leaf) && k < |names| && cut == Width(names[..k + 1])
    requires Width(names) == cut + Width(names[k + 1..])
    ensures cut <= |full| && Breadcrumb(full[cut..], names[k + 1..], leaf)
  {
    var rest, tail := names[k + 1..], full[cut..];
    Slide(full, cut, Width(rest), leaf);
    hide Width;
    forall i | 0 <= i < |rest| && rest[i] != "" ensures AtPlace(tail, Width(rest[..i]), rest[i] + "/") {
      assert rest[i] == names[k + 1 + i];
      assert names[..k + 1 + i] == names[..k + 1] + rest[..i];
      WidthsAdd(names[..k + 1], rest[..i]);
      Slide(full, cut, Width(rest[..i]), rest[i] + "/");
    }
  }

  lemma {:induction false} Slide(full: string, cut: nat, at: nat, part: string)
    requires AtPlace(full, cut + at, part)
    ensures AtPlace(full[cut..], at, part)
  {
    assert full[cut..][at..at + |part|] == full[cut + at..cut + at + |part|];
  }

  lemma {:induction false} FirstSlash(x: string, y: string, full: string)
    requires NoSlash(x) && NoSlash(y) && |x| < |full| && |y| < |full|
    requires full[..|x| + 1] == x + "/" && full[..|y| + 1] == y + "/"
    ensures x == y
  {
    assert full[|x|] == (x + "/")[|x|] == '/' && full[|y|] == (y + "/")[|y|] == '/';
    assert forall i :: 0 <= i < |x| ==> full[i] == (x + "/")[i] == x[i];
    assert forall i :: 0 <= i < |y| ==> full[i] == (y + "/")[i] == y[i];
    assert |x| == |y|;
    assert x == full[..|x|] && y == full[..|y|];
  }

  lemma {:induction false} HasSlash(x: string, full: string)
    requires |x| < |full| && full[..|x| + 1] == x + "/"
    ensures !NoSlash(full)
  {
    assert full[|x|] == (x + "/")[|x|];
  }

  /** Where no name has a "/", specs with one full name have the same scopes with
      names around them and the same name. */
  lemma {:induction false} FullNameTells(full: string, names: seq<string>, leaf: string, names': seq<string>,
      leaf': string)
    requires Breadcrumb(full, names, leaf) && Breadcrumb(full, names', leaf')
    requires NoSlashes(names) && NoSlashes(names') && NoSlash(leaf) && NoSlash(leaf')
    ensures Named(names) == Named(names') && leaf == leaf'
    decreases |names|
  {
    hide Breadcrumb, Named, Width;
    var k := Peel(full, names, leaf);
    var k' := Peel(full, names', leaf');
    hide FirstNamed;
    if k < |names| && k' < |names'| {
      FirstSlash(names[k], names'[k'], full);
      FullNameTells(full[|names[k]| + 1..], names[k + 1..], leaf, names'[k' + 1..], leaf');
    } else if k < |names| {
      HasSlash(names[k], full);
    } else if k' < |names'| {
      HasSlash(names'[k'], full);
    }
  }

  /** So it is with the specs of a suite. */
  lemma {:induction false} FullNamesTellSpecs(suite: Suite, spots: seq<Spot>, scopes: seq<seq<Around>>, focus: bool,
      labels: seq<string>, i: nat, j: nat)
    requires SuiteIs(suite, spots, scopes, focus, labels, false) && i < |suite.specs| && j < |suite.specs|
    requires suite.specs[i].fullName == suite.specs[j].fullName
    requires forall k :: 0 <= k < |spots| ==> NoSlashes(Names(spots[k].around)) && NoSlash(spots[k].name)
    ensures var running := Where(spots, Runs(focus));
            && |running| == |suite.specs|
            && Named(Names(running[i].around)) == Named(Names(running[j].around)) && running[i].name == running[j].name
  {
    var running := Where(spots, Runs(focus));
    WhereFrom(spots, Runs(focus));
    hide Where, Breadcrumb, Nested, Named, NoSlashes, NoSlash, Names, Route, GroupedOf, RunsAreNeighbours, ShownMarks;
    var d, e := running[i], running[j];
    assert d in spots && e in spots;
    assert ShowsSpec(suite.specs[i], d, labels, false) && ShowsSpec(suite.specs[j], e, labels, false);
    FullNameTells(suite.specs[i].fullName, Names(d.around), d.name, Names(e.around), e.name);
  }

  lemma {:induction false} WhereFrom(spots: seq<Spot>, f: Spot -> bool)
    ensures forall k :: 0 <= k < |Where(spots, f)| ==> Where(spots, f)[k] in spots
  {
    if spots != [] { WhereFrom(spots[1..], f); }
  }
}
