/** Taking the dependencies on the init and flyway services out of a compose file, line by line. */
module StripDepends {

  const INDENT := "      "
  const INIT := "      init:"
  const FLYWAY := "      flyway:"
  const HEADER := "    depends_on:"

  predicate Contains(s: string, part: string) {
    exists k :: 0 <= k <= |s| && part <= s[k..]
  }

  predicate Blank(s: string) {
    forall k :: 0 <= k < |s| ==> s[k] in {' ', '\t', '\n', '\r'} || s[k] as int in {11, 12, 28, 29, 30, 31}
  }

  predicate Removable(line: string) {
    INIT <= line || FLYWAY <= line
  }

  predicate Header(line: string) {
    HEADER <= line
  }

  predicate Indented(line: string) {
    INDENT <= line
  }

  /** A line of a block that is not taken out. */
  predicate OtherDependency(line: string) {
    Indented(line) && !Removable(line) && !Contains(line, "condition")
  }

  /** Which lines are looked for. */
  lemma LinesMeant(line: string)
    ensures Removable(line) <==> "      init:" <= line || "      flyway:" <= line
    ensures Header(line) <==> "    depends_on:" <= line
    ensures Indented(line) <==> |line| >= 6 && forall k :: 0 <= k < 6 ==> line[k] == ' '
  {
    if |line| >= 6 && forall k :: 0 <= k < 6 ==> line[k] == ' ' { assert line[..6] == INDENT; }
  }

  /** Containing is having something in front and something behind. */
  lemma ContainsMeans(s: string, part: string)
    ensures Contains(s, part) <==> exists front, back :: s == front + part + back
  {
    if Contains(s, part) {
      var k :| 0 <= k <= |s| && part <= s[k..];
      assert s == s[..k] + part + s[k + |part|..];
    }
    if front, back :| s == front + part + back {
      assert s[|front|..] == part + back;
    }
  }

  lemma Kinds(line: string)
    ensures Removable(line) ==> Indented(line)
    ensures Header(line) ==> !Indented(line) && !Removable(line)
  {
    if Header(line) { assert line[4] == 'd'; }
    if Indented(line) { assert line[4] == ' '; }
    if Removable(line) { assert forall k :: 0 <= k < 6 ==> line[k] == ' '; }
  }

  /** `k` lies in the block below `h`: everything from there on is indented. */
  ghost predicate InBlock(lines: seq<string>, h: nat, k: nat) {
    h < k < |lines| && forall m :: h < m <= k ==> Indented(lines[m])
  }

  /** A header with nothing but removable lines in its block. */
  ghost predicate EmptyHeader(lines: seq<string>, h: nat) {
    h < |lines| && Header(lines[h]) && forall k: nat :: InBlock(lines, h, k) ==> !OtherDependency(lines[k])
  }

  /** An init or flyway line with a condition or a blank line behind it. */
  ghost predicate RemovableAt(lines: seq<string>, k: nat) {
    k + 1 < |lines| && Removable(lines[k]) && (Contains(lines[k + 1], "condition:") || Blank(lines[k + 1]))
  }

  /** The condition of an init or flyway line. */
  ghost predicate ConditionAt(lines: seq<string>, k: nat) {
    0 < k < |lines| && Removable(lines[k - 1]) && Contains(lines[k], "condition:")
  }

  ghost predicate InEmptyBlock(lines: seq<string>, k: nat) {
    exists h: nat :: h < k && EmptyHeader(lines, h) && InBlock(lines, h, k)
  }

  /** What there is to take out. */
  ghost predicate ToDrop(lines: seq<string>, k: nat) {
    RemovableAt(lines, k) || ConditionAt(lines, k) || EmptyHeader(lines, k) || InEmptyBlock(lines, k)
  }

  /** Conditions stand on lines of their own, indented below their dependency. */
  ghost predicate Tidy(lines: seq<string>) {
    && (forall k :: 0 <= k < |lines| && (Removable(lines[k]) || Header(lines[k])) ==> !Contains(lines[k], "condition:"))
    && (forall k: nat :: ConditionAt(lines, k) ==> Indented(lines[k]))
  }

  ghost predicate Increasing(kept: seq<nat>, n: nat) {
    && (forall a :: 0 <= a < |kept| ==> kept[a] < n)
    && (forall a, b :: 0 <= a < b < |kept| ==> kept[a] < kept[b])
  }

  function Select(lines: seq<string>, kept: seq<nat>): (r: seq<string>)
    requires forall a :: 0 <= a < |kept| ==> kept[a] < |lines|
    ensures |r| == |kept|
  {
    seq(|kept|, a requires 0 <= a < |kept| => lines[kept[a]])
  }

  /** The first `i` lines are settled. */
  ghost predicate Settled(lines: seq<string>, i: nat, kept: seq<nat>) {
    && i <= |lines| && Increasing(kept, i)
    && (forall k :: 0 <= k < i && k !in kept ==> ToDrop(lines, k))
    && (forall k :: k in kept ==> !RemovableAt(lines, k) && !EmptyHeader(lines, k))
    && (Tidy(lines) ==> forall k :: k in kept ==> !ToDrop(lines, k))
    && (Tidy(lines) ==> Arrived(lines, i))
  }

  /** Line `i` is not to be dropped on account of the lines in front of it. */
  ghost predicate Arrived(lines: seq<string>, i: nat) {
    !ConditionAt(lines, i) && !InEmptyBlock(lines, i)
  }

  lemma BlockGoesOn(lines: seq<string>, i: nat, j: nat)
    requires i < j && !InEmptyBlock(lines, i)
    ensures forall h: nat :: h < i && EmptyHeader(lines, h) ==> !InBlock(lines, h, j)
  {
    assert forall h: nat :: h < i && InBlock(lines, h, j) ==> InBlock(lines, h, i);
  }

  lemma DropRange(lines: seq<string>, i: nat, j: nat, kept: seq<nat>)
    requires i <= j <= |lines| && Settled(lines, i, kept) && (Tidy(lines) ==> Arrived(lines, j))
    requires forall k: nat :: i <= k < j ==> ToDrop(lines, k)
    ensures Settled(lines, j, kept)
  {
  }

  lemma ArrivedBehindCondition(lines: seq<string>, i: nat)
    requires i + 1 < |lines| && Tidy(lines) && !InEmptyBlock(lines, i) && Removable(lines[i]) &&
             Contains(lines[i + 1], "condition:")
    ensures Arrived(lines, i + 2)
  {
    assert !Removable(lines[i + 1]) && !Header(lines[i + 1]);
    Kinds(lines[i]);
    assert !ConditionAt(lines, i + 2);
    forall h: nat | h < i + 2 && EmptyHeader(lines, h) ensures !InBlock(lines, h, i + 2) {
      assert h < i;
      assert InBlock(lines, h, i + 2) ==> InBlock(lines, h, i);
    }
  }

  /** Dropping an init or flyway line with the condition behind it. */
  lemma DropWithCondition(lines: seq<string>, i: nat, after: nat, kept: seq<nat>)
    requires after == i + 2 <= |lines| && Settled(lines, i, kept)
    requires Removable(lines[i]) && Contains(lines[i + 1], "condition:")
    ensures Settled(lines, after, kept)
  {
    if Tidy(lines) { ArrivedBehindCondition(lines, i); }
    forall k: nat | i <= k < after ensures ToDrop(lines, k) {
      assert if k == i then RemovableAt(lines, k) else ConditionAt(lines, k);
    }
    DropRange(lines, i, after, kept);
  }

  /** Dropping an init or flyway line with a blank line behind it. */
  lemma DropAlone(lines: seq<string>, i: nat, kept: seq<nat>)
    requires i + 1 < |lines| && Settled(lines, i, kept) && Removable(lines[i])
    requires Blank(lines[i + 1]) && !Contains(lines[i + 1], "condition:")
    ensures Settled(lines, i + 1, kept)
  {
    assert ToDrop(lines, i);
    Kinds(lines[i]);
    if Tidy(lines) { BlockGoesOn(lines, i, i + 1); }
  }

  /** Dropping a header with its block. */
  lemma DropBlock(lines: seq<string>, i: nat, j: nat, kept: seq<nat>)
    requires i < j <= |lines| && Settled(lines, i, kept) && Header(lines[i])
    requires forall m :: i < m < j ==> Indented(lines[m]) && !OtherDependency(lines[m])
    requires j == |lines| || !Indented(lines[j])
    ensures Settled(lines, j, kept)
  {
    assert EmptyHeader(lines, i);
    forall k | i <= k < j ensures ToDrop(lines, k) {
      if k > i { assert InBlock(lines, i, k); }
    }
  }

  lemma Keep(lines: seq<string>, i: nat, kept: seq<nat>)
    requires i < |lines| && Settled(lines, i, kept) && !RemovableAt(lines, i) && !EmptyHeader(lines, i)
    ensures Settled(lines, i + 1, kept + [i])
  {
    var more := kept + [i];
    assert forall k: nat :: k in more <==> k in kept || k == i;
    if Tidy(lines) {
      assert !ToDrop(lines, i);
      BlockGoesOn(lines, i, i + 1);
    }
  }

  /** The lines kept are a subsequence. Only what there is to take out is dropped; in a tidy file all of
      it is. */
  method ProcessCompose(lines: seq<string>) returns (out: seq<string>, ghost kept: seq<nat>)
    ensures Increasing(kept, |lines|) && out == Select(lines, kept)
    ensures forall k :: 0 <= k < |lines| && k !in kept ==>
              ToDrop(lines, k) && (Removable(lines[k]) || Contains(lines[k], "condition") || Header(lines[k]))
    ensures forall k :: k in kept ==> !RemovableAt(lines, k) && !EmptyHeader(lines, k)
    ensures Tidy(lines) ==> forall k :: k in kept ==> !ToDrop(lines, k)
    ensures forall a :: 0 <= a < |out| && Header(out[a]) ==> HasOtherDependency(out, a)
  {
    out, kept := [], [];
    var i := 0;
    while i < |lines|
      invariant Settled(lines, i, kept) && out == Select(lines, kept)
      decreases |lines| - i
    {
      var line := lines[i];
      Kinds(line);
      if Removable(line) {
        if i + 1 < |lines| && Contains(lines[i + 1], "condition:") {
          DropWithCondition(lines, i, i + 2, kept);
          i := i + 2;
          continue;
        } else if i + 1 < |lines| && Blank(lines[i + 1]) {
          DropAlone(lines, i, kept);
          i := i + 1;
          continue;
        }
      }
      if Header(line) {
        var j := i + 1;
        var hasOther := false;
        while j < |lines| && Indented(lines[j])
          invariant i < j <= |lines| && !hasOther
          invariant forall m :: i < m < j ==> Indented(lines[m]) && !OtherDependency(lines[m])
        {
          if !(Removable(lines[j]) || Contains(lines[j], "condition")) {
            hasOther := true;
            assert InBlock(lines, i, j);
            break;
          }
          j := j + 1;
        }
        if !hasOther {
          DropBlock(lines, i, j, kept);
          i := j;
          continue;
        }
      }
      Keep(lines, i, kept);
      out := out + [line];
      kept := kept + [i];
      i := i + 1;
    }
    WhatIsLeft(lines, kept, out);
  }

  lemma WhatIsLeft(lines: seq<string>, kept: seq<nat>, out: seq<string>)
    requires Settled(lines, |lines|, kept) && out == Select(lines, kept)
    ensures forall k :: 0 <= k < |lines| && k !in kept ==>
            Removable(lines[k]) || Contains(lines[k], "condition") || Header(lines[k])
    ensures forall a :: 0 <= a < |out| && Header(out[a]) ==> HasOtherDependency(out, a)
  {
    forall k | 0 <= k < |lines| && ToDrop(lines, k)
      ensures Removable(lines[k]) || Contains(lines[k], "condition") || Header(lines[k])
    {
      DroppedKinds(lines, k);
    }
    forall a | 0 <= a < |out| && Header(out[a]) ensures HasOtherDependency(out, a) {
      HeaderKeepsADependency(lines, kept, out, a);
    }
  }

  /** Within its block, the header has a dependency that is neither init nor flyway. */
  ghost predicate HasOtherDependency(out: seq<string>, a: nat) {
    exists b: nat :: InBlock(out, a, b) && OtherDependency(out[b])
  }

  lemma ConditionWord(line: string)
    ensures Contains(line, "condition:") ==> Contains(line, "condition")
  {
    if Contains(line, "condition:") {
      var k :| 0 <= k <= |line| && "condition:" <= line[k..];
      assert "condition" <= "condition:";
      assert "condition" <= line[k..];
    }
  }

  lemma DroppedKinds(lines: seq<string>, k: nat)
    requires k < |lines| && ToDrop(lines, k)
    ensures Removable(lines[k]) || Contains(lines[k], "condition") || Header(lines[k])
  {
    ConditionWord(lines[k]);
  }

  /** Another dependency below a header that is not empty is never dropped, and nothing that ends the block
      comes in between. */
  lemma HeaderKeepsADependency(lines: seq<string>, kept: seq<nat>, out: seq<string>, a: nat)
    requires Settled(lines, |lines|, kept) && out == Select(lines, kept)
    requires a < |out| && Header(out[a])
    ensures HasOtherDependency(out, a)
  {
    var h := kept[a];
    assert h in kept && !EmptyHeader(lines, h);
    var k: nat :| InBlock(lines, h, k) && OtherDependency(lines[k]);
    Kinds(lines[h]);
    Kinds(lines[k]);
    ConditionWord(lines[k]);
    forall g: nat | g < k && Header(lines[g]) && InBlock(lines, g, k) ensures g == h {
      Kinds(lines[g]);
    }
    assert k in kept;
    var b :| 0 <= b < |kept| && kept[b] == k;
    assert a < b;
    forall m | a < m <= b ensures Indented(out[m]) {
      assert h < kept[m] <= k;
    }
    assert InBlock(out, a, b);
  }
}
