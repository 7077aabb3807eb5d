/** The Newick strings that TreeDistributionsMapper.java builds: the
    balanced ultrametric tree, the pectinate (comb) tree, the star tree over
    a taxon set and the fixed two-taxon dummy tree.

    Each builder's output is described as a skeleton filled with the taxa:
    the skeleton depends only on the number of taxa, holds one slot
    character per taxon and Newick punctuation otherwise, and `Fill`
    replaces the k-th slot by the k-th taxon.  That is the precise form of
    "every taxon appears exactly once, in input order". */
module Newick {

  import Text

  /** The placeholder a skeleton holds where a taxon name goes. */
  const Slot: char := '#'

  /** Number of taxon slots in a skeleton. */
  function Slots(skeleton: string): nat
  {
    Text.Count(Slot, skeleton)
  }

  /** The skeleton with its k-th slot replaced by names[k], for every k. */
  function Fill(skeleton: string, names: seq<string>): string
    requires Slots(skeleton) == |names|
    decreases |skeleton|
  {
    if |skeleton| == 0 then ""
    else if skeleton[0] == Slot then names[0] + Fill(skeleton[1..], names[1..])
    else [skeleton[0]] + Fill(skeleton[1..], names)
  }

  /** A skeleton holds slots and the characters the builders emit around
      taxon names, and nothing else. */
  predicate IsSkeleton(s: string)
  {
    forall j :: 0 <= j < |s| ==> SkeletonChar(s[j])
  }

  /** A slot, or a character the builders emit around taxon names. */
  predicate SkeletonChar(c: char)
  {
    c == Slot || c == '(' || c == ')' || c == ',' || c == ':' || c == ';' || c == '.' || c == '0' || c == '1' || c == '5'
  }

  lemma {:induction false} SkeletonConcat(a: string, b: string)
    requires IsSkeleton(a) && IsSkeleton(b)
    ensures IsSkeleton(a + b)
  {
    forall j | 0 <= j < |a + b| ensures (a + b)[j] in "#(),:;.015" {
      if j >= |a| {
        assert (a + b)[j] == b[j - |a|];
      }
    }
  }

  lemma {:induction false} SlotsAppend(a: string, b: string)
    ensures Slots(a + b) == Slots(a) + Slots(b)
  {
    Text.CountAppend(Slot, a, b);
  }

  /** Filling a concatenation fills each part with its own share of names. */
  lemma {:induction false} FillConcat(a: string, b: string, x: seq<string>, y: seq<string>)
    requires Slots(a) == |x| && Slots(b) == |y|
    ensures Slots(a + b) == |x + y|
    ensures Fill(a + b, x + y) == Fill(a, x) + Fill(b, y)
    decreases |a|
  {
    SlotsAppend(a, b);
    if |a| == 0 {
      assert a + b == b;
      assert x + y == y;
    } else {
      assert (a + b)[1..] == a[1..] + b;
      Text.CountAppend(Slot, [a[0]], a[1..]);
      assert [a[0]] + a[1..] == a;
      if a[0] == Slot {
        assert (x + y)[1..] == x[1..] + y;
        FillConcat(a[1..], b, x[1..], y);
      } else {
        FillConcat(a[1..], b, x, y);
      }
    }
  }

  /** A skeleton without slots is left as it is. */
  lemma {:induction false} FillPlain(p: string)
    requires Slots(p) == 0
    ensures Fill(p, []) == p
    decreases |p|
  {
    if |p| > 0 {
      Text.CountAppend(Slot, [p[0]], p[1..]);
      assert [p[0]] + p[1..] == p;
      FillPlain(p[1..]);
    }
  }

  /** A single slot becomes the single name. */
  lemma {:induction false} FillSlot(t: string)
    ensures Slots([Slot]) == 1
    ensures Fill([Slot], [t]) == t
  {
    var sk: string := [Slot];
    assert sk[0] == Slot && sk[1..] == [];
    assert Slots(sk) == 1 + Slots([]);
    assert [t][1..] == [];
    assert Fill(sk, [t]) == t + Fill([], []);
    assert t + "" == t;
  }

  /** Filling "p" + skeleton + "s" (p, s without slots). */
  lemma {:induction false} FillAround(p: string, mid: string, s: string, names: seq<string>)
    requires Slots(p) == 0 && Slots(s) == 0 && Slots(mid) == |names|
    ensures Slots(p + mid + s) == |names|
    ensures Fill(p + mid + s, names) == p + Fill(mid, names) + s
  {
    FillPlain(p);
    FillPlain(s);
    FillConcat(p, mid, [], names);
    assert [] + names == names;
    FillConcat(p + mid, s, names, []);
    assert names + [] == names;
  }

  // ---------------------------------------------------------------------
  // Balanced ultrametric tree (createUltrametricNewick, createBalancedNewickSubtree)
  // ---------------------------------------------------------------------

  /** "(" + l + "," + r + "):1.0": the join of two subtrees. */
  function Join2(l: string, r: string): string
  {
    "(" + l + "," + r + "):1.0"
  }

  /** Where a range of three or more taxa is split: its left part ends here. */
  function Mid(start: nat, end: nat): (mid: nat)
    requires start + 2 <= end
    ensures start <= mid < end
  {
    start + (end - start) / 2
  }

  /** `createBalancedNewickSubtree(taxa, start, end)`: a range of three or
      more taxa is split at `Mid` into two subtrees
      joined as "(l,r):1.0", a pair is "(a:1.0,b:1.0):1.0" and a leaf is
      the bare name. */
  function BalancedNewickSubtree(taxa: seq<string>, start: nat, end: nat): string
    requires start <= end < |taxa|
    decreases end - start
  {
    if start + 2 <= end then
      Join2(BalancedNewickSubtree(taxa, start, Mid(start, end)), BalancedNewickSubtree(taxa, Mid(start, end) + 1, end))
    else if start == end then taxa[start]
    else Join2(taxa[start] + ":1.0", taxa[end] + ":1.0")
  }

  /** `createUltrametricNewick`: "" for no taxa, "name;" for one, the balanced
      subtree over all taxa followed by ";" otherwise. */
  function UltrametricNewick(taxa: seq<string>): string
  {
    if |taxa| == 0 then ""
    else if |taxa| == 1 then taxa[0] + ";"
    else BalancedNewickSubtree(taxa, 0, |taxa| - 1) + ";"
  }

  /** Size of the left part when n >= 3 taxa are split: never smaller than
      the right part, and larger by at most one. */
  function LeftSize(n: nat): (l: nat)
    requires n >= 3
    ensures 0 < n - l <= l <= n - l + 1
  {
    (n - 1) / 2 + 1
  }

  /** Joining adds one opening and one closing parenthesis and no slot. */
  lemma {:induction false} Join2Counts(l: string, r: string)
    ensures Slots(Join2(l, r)) == Slots(l) + Slots(r)
    ensures Text.Count('(', Join2(l, r)) == Text.Count('(', l) + Text.Count('(', r) + 1
    ensures Text.Count(')', Join2(l, r)) == Text.Count(')', l) + Text.Count(')', r) + 1
  {
    forall c | c in "#()"
      ensures Text.Count(c, Join2(l, r)) == Text.Count(c, l) + Text.Count(c, r) + (if c == Slot then 0 else 1)
    {
      Text.CountAppend(c, "(" + l + "," + r, "):1.0");
      Text.CountAppend(c, "(" + l + ",", r);
      Text.CountAppend(c, "(" + l, ",");
      Text.CountAppend(c, "(", l);
      assert Text.Count(c, ",") == 0;
      if c == '(' {
        assert Text.Count(c, "):1.0") == 0 && Text.Count(c, "(") == 1;
      } else if c == ')' {
        assert Text.Count(c, "):1.0") == 1 && Text.Count(c, "(") == 0;
      } else {
        assert Text.Count(c, "):1.0") == 0 && Text.Count(c, "(") == 0;
      }
    }
  }

  lemma {:induction false} FillJoin2(l: string, r: string, x: seq<string>, y: seq<string>)
    requires Slots(l) == |x| && Slots(r) == |y|
    ensures Slots(Join2(l, r)) == |x + y|
    ensures Fill(Join2(l, r), x + y) == Join2(Fill(l, x), Fill(r, y))
  {
    assert Slots("(") == 0 && Slots(",") == 0 && Slots("):1.0") == 0;
    FillAround("(", l, ",", x);
    FillConcat("(" + l + ",", r, x, y);
    FillPlain("):1.0");
    FillConcat("(" + l + "," + r, "):1.0", x + y, []);
    assert x + y + [] == x + y;
  }

  /** The skeleton of a balanced subtree over n taxa. */
  function BalancedSkeleton(n: nat): string
    requires n >= 1
    decreases n
  {
    if n >= 3 then Join2(BalancedSkeleton(LeftSize(n)), BalancedSkeleton(n - LeftSize(n)))
    else if n == 1 then [Slot]
    else Join2(BranchLeaf(), BranchLeaf())
  }

  /** The balanced skeleton over n taxa holds n slots. */
  lemma {:induction false} BalancedSkeletonSlots(n: nat)
    requires n >= 1
    ensures Slots(BalancedSkeleton(n)) == n
    decreases n
  {
    if n >= 3 {
      SkeletonSplits(n, LeftSize(n), n - LeftSize(n));
      BalancedSkeletonSlots(LeftSize(n));
      BalancedSkeletonSlots(n - LeftSize(n));
      Join2Counts(BalancedSkeleton(LeftSize(n)), BalancedSkeleton(n - LeftSize(n)));
    } else if n == 1 {
      FillSlot("");
    } else {
      Join2Counts(BranchLeaf(), BranchLeaf());
    }
  }

  /** The balanced subtree over taxa[start..end + 1] is that range of taxa,
      in order, filled into the skeleton for that many taxa. */
  predicate FillsRange(taxa: seq<string>, start: nat, end: nat)
    requires start <= end < |taxa|
  {
    BalancedSkeletonSlots(end - start + 1);
    BalancedNewickSubtree(taxa, start, end) == Fill(BalancedSkeleton(end - start + 1), taxa[start..end + 1])
  }

  /** The balanced subtree is its range of taxa, in order, filled into the
      skeleton for that many taxa. */
  lemma {:induction false} BalancedSubtreeFills(taxa: seq<string>, start: nat, end: nat)
    requires start <= end < |taxa|
    ensures FillsRange(taxa, start, end)
    decreases end - start
  {
    if start + 2 <= end {
      var mid := Mid(start, end);
      BalancedSubtreeFills(taxa, start, mid);
      BalancedSubtreeFills(taxa, mid + 1, end);
      SplitFills(taxa, start, mid, end);
    } else if start == end {
      LeafFills(taxa, start);
    } else {
      PairRangeFills(taxa, start);
    }
  }

  lemma {:induction false} LeafFills(taxa: seq<string>, i: nat)
    requires i < |taxa|
    ensures FillsRange(taxa, i, i)
  {
    FillSlot(taxa[i]);
    assert taxa[i..i + 1] == [taxa[i]];
  }

  lemma {:induction false} PairRangeFills(taxa: seq<string>, i: nat)
    requires i + 1 < |taxa|
    ensures FillsRange(taxa, i, i + 1)
  {
    var names := taxa[i..i + 2];
    assert names == [taxa[i], taxa[i + 1]];
    PairFills(taxa[i], taxa[i + 1], names);
    PairSubtree(taxa, i);
  }

  lemma PairSubtree(taxa: seq<string>, i: nat)
    requires i + 1 < |taxa|
    ensures BalancedNewickSubtree(taxa, i, i + 1) == Join2(taxa[i] + ":1.0", taxa[i + 1] + ":1.0")
  {
  }


  /** The inductive step: if both halves fill their skeletons, so does the whole. */
  lemma {:induction false} SplitFills(taxa: seq<string>, start: nat, mid: nat, end: nat)
    requires start + 2 <= end < |taxa| && mid == Mid(start, end)
    requires FillsRange(taxa, start, mid) && FillsRange(taxa, mid + 1, end)
    ensures FillsRange(taxa, start, end)
  {
    MidIsLeftSize(start, end);
    SkeletonSplits(end - start + 1, mid - start + 1, end - mid);
    BalancedSkeletonSlots(mid - start + 1);
    BalancedSkeletonSlots(end - mid);
    SubtreeSplits(taxa, start, end);
    SliceConcat(taxa, start, mid + 1, end + 1);
    JoinFills(BalancedSkeleton(end - start + 1), BalancedNewickSubtree(taxa, start, end),
              BalancedSkeleton(mid - start + 1), BalancedSkeleton(end - mid),
              BalancedNewickSubtree(taxa, start, mid), BalancedNewickSubtree(taxa, mid + 1, end),
              taxa[start..mid + 1], taxa[mid + 1..end + 1], taxa[start..end + 1]);
  }

  /** The subtree's split and the skeleton's split agree. */
  lemma MidIsLeftSize(start: nat, end: nat)
    requires start + 2 <= end
    ensures Mid(start, end) - start + 1 == LeftSize(end - start + 1)
  {
  }

  lemma {:induction false} SkeletonSplits(n: nat, l: nat, r: nat)
    requires n >= 3 && l == LeftSize(n) && r == n - l
    ensures l >= 1 && r >= 1
    ensures BalancedSkeleton(n) == Join2(BalancedSkeleton(l), BalancedSkeleton(r))
  {
  }

  lemma {:induction false} SubtreeSplits(taxa: seq<string>, start: nat, end: nat)
    requires start + 2 <= end < |taxa|
    ensures BalancedNewickSubtree(taxa, start, end) ==
      Join2(BalancedNewickSubtree(taxa, start, Mid(start, end)), BalancedNewickSubtree(taxa, Mid(start, end) + 1, end))
  {
  }

  /** A joined skeleton filled with the concatenated names is the join of
      the filled parts. */
  lemma {:induction false} JoinFills(whole: string, tree: string, l: string, r: string, lt: string, rt: string,
                                     x: seq<string>, y: seq<string>, names: seq<string>)
    requires whole == Join2(l, r) && tree == Join2(lt, rt) && names == x + y
    requires Slots(l) == |x| && Slots(r) == |y| && lt == Fill(l, x) && rt == Fill(r, y)
    ensures Slots(whole) == |names| && tree == Fill(whole, names)
  {
    FillJoin2(l, r, x, y);
  }

  lemma {:induction false} SliceConcat<T>(s: seq<T>, a: nat, b: nat, c: nat)
    requires a <= b <= c <= |s|
    ensures s[a..b] + s[b..c] == s[a..c]
  {
    assert forall k | 0 <= k < c - a :: (s[a..b] + s[b..c])[k] == s[a..c][k];
  }

  /** The skeleton of a taxon that carries a branch length. */
  function BranchLeaf(): (r: string)
    ensures Slots(r) == 1 && Text.Count('(', r) == 0 && Text.Count(')', r) == 0
    ensures IsSkeleton(r)
  {
    FillSlot("");
    Text.CountAppend(Slot, [Slot], ":1.0");
    Text.CountAppend('(', [Slot], ":1.0");
    Text.CountAppend(')', [Slot], ":1.0");
    assert IsSkeleton([Slot]) && IsSkeleton(":1.0");
    SkeletonConcat([Slot], ":1.0");
    [Slot] + ":1.0"
  }

  lemma {:induction false} BranchLeafFills(t: string)
    ensures Fill(BranchLeaf(), [t]) == t + ":1.0"
  {
    FillSlot(t);
    assert Slots(":1.0") == 0;
    FillPlain(":1.0");
    FillConcat([Slot], ":1.0", [t], []);
    assert [t] + [] == [t];
  }

  lemma {:induction false} PairFills(a: string, b: string, names: seq<string>)
    requires names == [a, b]
    ensures Slots(BalancedSkeleton(2)) == 2
    ensures Fill(BalancedSkeleton(2), names) == Join2(a + ":1.0", b + ":1.0")
  {
    BalancedSkeletonSlots(2);
    BranchLeafFills(a);
    BranchLeafFills(b);
    FillJoin2(BranchLeaf(), BranchLeaf(), [a], [b]);
    assert [a] + [b] == names;
  }


  /** Every taxon appears exactly once, in input order, in the ultrametric
      tree, around punctuation that depends only on the taxon count. */
  lemma {:induction false} UltrametricFillsTaxa(taxa: seq<string>)
    requires |taxa| >= 1
    ensures Slots(BalancedSkeleton(|taxa|) + ";") == |taxa|
    ensures UltrametricNewick(taxa) == Fill(BalancedSkeleton(|taxa|) + ";", taxa)
  {
    BalancedSubtreeFills(taxa, 0, |taxa| - 1);
    BalancedSkeletonSlots(|taxa|);
    assert taxa[0..|taxa|] == taxa;
    assert Slots(";") == 0 && Slots("") == 0;
    FillAround("", BalancedSkeleton(|taxa|), ";", taxa);
    assert "" + BalancedSkeleton(|taxa|) == BalancedSkeleton(|taxa|);
    assert "" + Fill(BalancedSkeleton(|taxa|), taxa) == Fill(BalancedSkeleton(|taxa|), taxa);
  }

  /** The balanced skeleton holds only slots and Newick punctuation. */
  lemma {:induction false} BalancedSkeletonIsSkeleton(n: nat)
    requires n >= 1
    ensures IsSkeleton(BalancedSkeleton(n))
    decreases n
  {
    if n == 1 {
      assert BalancedSkeleton(n) == [Slot];
    } else if n == 2 {
      Join2Skeleton(BranchLeaf(), BranchLeaf());
    } else {
      var left := LeftSize(n);
      SkeletonSplits(n, LeftSize(n), n - LeftSize(n));
      BalancedSkeletonIsSkeleton(left);
      BalancedSkeletonIsSkeleton(n - left);
      Join2Skeleton(BalancedSkeleton(left), BalancedSkeleton(n - left));
    }
  }

  /** The balanced skeleton over n taxa has n - 1 opening and n - 1
      closing parentheses: one pair per internal node of the binary tree. */
  lemma {:induction false} BalancedSkeletonParentheses(n: nat)
    requires n >= 1
    ensures Text.Count('(', BalancedSkeleton(n)) == n - 1
    ensures Text.Count(')', BalancedSkeleton(n)) == n - 1
    decreases n
  {
    if n == 1 {
      assert BalancedSkeleton(n) == [Slot];
    } else if n == 2 {
      Join2Counts(BranchLeaf(), BranchLeaf());
    } else {
      var left := LeftSize(n);
      SkeletonSplits(n, LeftSize(n), n - LeftSize(n));
      BalancedSkeletonParentheses(left);
      BalancedSkeletonParentheses(n - left);
      Join2Counts(BalancedSkeleton(left), BalancedSkeleton(n - left));
    }
  }

  /** Joining two skeletons gives a skeleton. */
  lemma {:induction false} Join2Skeleton(l: string, r: string)
    requires IsSkeleton(l) && IsSkeleton(r)
    ensures IsSkeleton(Join2(l, r))
  {
    assert IsSkeleton("(") && IsSkeleton(",") && IsSkeleton("):1.0");
    SkeletonConcat("(", l);
    SkeletonConcat("(" + l, ",");
    SkeletonConcat("(" + l + ",", r);
    SkeletonConcat("(" + l + "," + r, "):1.0");
  }

  /** The fixed dummy tree written when no taxa are known. */
  const DummyNewick: string := "(taxon1:1.0,taxon2:1.0):1.0;"

  /** The dummy tree is the ultrametric tree over "taxon1" and "taxon2". */
  lemma {:induction false} DummyIsUltrametric()
    ensures DummyNewick == UltrametricNewick(["taxon1", "taxon2"])
  {
    var taxa := ["taxon1", "taxon2"];
    assert UltrametricNewick(taxa) == BalancedNewickSubtree(taxa, 0, 1) + ";";
  }

  // ---------------------------------------------------------------------
  // Pectinate tree (createPectinateNewick)
  // ---------------------------------------------------------------------

  /** What the comb appends for each taxon but the last. */
  const Open: string := "(#:0.5,"

  /** What the comb appends for each closed parenthesis. */
  const Close: string := "):0.5"

  /** k copies of `Open`. */
  function Opens(k: nat): (r: string)
    ensures Slots(r) == k
  {
    if k == 0 then ""
    else
      Text.CountAppend(Slot, Opens(k - 1), Open);
      assert Slots(Open) == 1;
      Opens(k - 1) + Open
  }

  /** k copies of `Close`. */
  function Closes(k: nat): (r: string)
    ensures Slots(r) == 0
  {
    if k == 0 then ""
    else
      Text.CountAppend(Slot, Closes(k - 1), Close);
      assert Slots(Close) == 0;
      Closes(k - 1) + Close
  }

  /** k openers: k opening parentheses, no closing one, punctuation and slots only. */
  lemma {:induction false} OpensShape(k: nat)
    ensures Text.Count('(', Opens(k)) == k && Text.Count(')', Opens(k)) == 0
    ensures IsSkeleton(Opens(k))
  {
    if k > 0 {
      OpensShape(k - 1);
      Text.CountAppend('(', Opens(k - 1), Open);
      Text.CountAppend(')', Opens(k - 1), Open);
      assert Text.Count('(', Open) == 1 && Text.Count(')', Open) == 0;
      assert IsSkeleton(Open);
      SkeletonConcat(Opens(k - 1), Open);
    }
  }

  /** k closers: k closing parentheses, no opening one, punctuation only. */
  lemma {:induction false} ClosesShape(k: nat)
    ensures Text.Count('(', Closes(k)) == 0 && Text.Count(')', Closes(k)) == k
    ensures IsSkeleton(Closes(k))
  {
    if k > 0 {
      ClosesShape(k - 1);
      Text.CountAppend('(', Closes(k - 1), Close);
      Text.CountAppend(')', Closes(k - 1), Close);
      assert Text.Count('(', Close) == 0 && Text.Count(')', Close) == 1;
      assert IsSkeleton(Close);
      SkeletonConcat(Closes(k - 1), Close);
    }
  }

  /** The skeleton of the comb over n >= 2 taxa. */
  function PectinateSkeleton(n: nat): (r: string)
    requires n >= 2
    ensures Slots(r) == n
  {
    Text.CountAppend(Slot, Opens(n - 1), "#:0.5");
    Text.CountAppend(Slot, Opens(n - 1) + "#:0.5", Closes(n - 1));
    Text.CountAppend(Slot, Opens(n - 1) + "#:0.5" + Closes(n - 1), ";");
    assert Slots("#:0.5") == 1 && Slots(";") == 0;
    Opens(n - 1) + "#:0.5" + Closes(n - 1) + ";"
  }

  /** `Open` filled with one taxon. */
  lemma OpenFills(t: string)
    ensures Slots(Open) == 1
    ensures Fill(Open, [t]) == "(" + t + ":0.5,"
  {
    assert Slots("(") == 0 && Slots(":0.5,") == 0 && Open == "(" + [Slot] + ":0.5,";
    FillSlot(t);
    FillAround("(", [Slot], ":0.5,", [t]);
  }

  /** Filling one more `Open` with the next taxon. */
  lemma {:induction false} OpenStep(taxa: seq<string>, i: nat)
    requires i < |taxa|
    ensures Fill(Opens(i), taxa[..i]) + "(" + taxa[i] + ":0.5," == Fill(Opens(i + 1), taxa[..i + 1])
  {
    var prefix, t := taxa[..i], taxa[i];
    OpenFills(t);
    FillConcat(Opens(i), Open, prefix, [t]);
    assert prefix + [t] == taxa[..i + 1];
    assert Opens(i + 1) == Opens(i) + Open;
    Associative(Fill(Opens(i), prefix), "(" + t, ":0.5,");
    Associative(Fill(Opens(i), prefix), "(", t);
  }

  /** The first `Open`, filled with the first taxon. */
  lemma {:induction false} FirstOpen(taxa: seq<string>)
    requires |taxa| >= 1
    ensures "(" + taxa[0] + ":0.5," == Fill(Opens(1), taxa[..1])
  {
    OpenStep(taxa, 0);
    assert Opens(0) == "" && taxa[..0] == [];
    assert Fill("", []) == "";
    assert "" + "(" + taxa[0] + ":0.5," == "(" + taxa[0] + ":0.5,";
  }

  /** Filling the last taxon and the closers. */
  lemma {:induction false} CombClose(taxa: seq<string>)
    requires |taxa| >= 2
    ensures var n := |taxa|;
      Fill(Opens(n - 1), taxa[..n - 1]) + taxa[n - 1] + ":0.5" + Closes(n - 1) + ";"
      == Fill(PectinateSkeleton(n), taxa)
  {
    var n := |taxa|;
    var o, c := Opens(n - 1), Closes(n - 1);
    var front, last := taxa[..n - 1], taxa[n - 1];
    assert Slots(":0.5") == 0 && Slots(";") == 0 && Slots("#:0.5") == 1;
    assert "#:0.5" == [Slot] + ":0.5";
    FillSlot(last);
    FillPlain(":0.5");
    FillConcat([Slot], ":0.5", [last], []);
    assert [last] + [] == [last];
    FillConcat(o, "#:0.5", front, [last]);
    assert front + [last] == taxa;
    FillPlain(c);
    FillConcat(o + "#:0.5", c, taxa, []);
    assert taxa + [] == taxa;
    FillPlain(";");
    FillConcat(o + "#:0.5" + c, ";", taxa, []);
    Associative(Fill(o, front), last, ":0.5");
  }

  /** Appending one more closer. */
  lemma {:induction false} CloseStep(prefix: string, j: nat)
    ensures prefix + Closes(j) + ")" + ":0.5" == prefix + Closes(j + 1)
  {
    assert ")" + ":0.5" == Close;
  }

  lemma Associative(a: string, b: string, c: string)
    ensures a + b + c == a + (b + c)
  {
  }

  /** `createPectinateNewick`. */
  method PectinateNewick(taxa: seq<string>) returns (newick: string)
    ensures |taxa| == 0 ==> newick == ""
    ensures |taxa| == 1 ==> newick == taxa[0] + ";"
    ensures |taxa| >= 2 ==> newick == Fill(PectinateSkeleton(|taxa|), taxa)
  {
    var n := |taxa|;
    if n == 0 {
      return "";
    }
    if n == 1 {
      return taxa[0] + ";";
    }
    FirstOpen(taxa);
    var sb := "(" + taxa[0] + ":0.5,";
    var i := 1;
    while i < n - 1
      invariant 1 <= i <= n - 1
      invariant sb == Fill(Opens(i), taxa[..i])
    {
      OpenStep(taxa, i);
      sb := sb + "(" + taxa[i] + ":0.5,";
      i := i + 1;
    }
    sb := sb + taxa[n - 1] + ":0.5";
    var j := 0;
    while j < n - 1
      invariant 0 <= j <= n - 1
      invariant sb == Fill(Opens(n - 1), taxa[..n - 1]) + taxa[n - 1] + ":0.5" + Closes(j)
    {
      CloseStep(Fill(Opens(n - 1), taxa[..n - 1]) + taxa[n - 1] + ":0.5", j);
      sb := sb + ")" + ":0.5";
      j := j + 1;
    }
    sb := sb + ";";
    CombClose(taxa);
    newick := sb;
  }

  /** The comb's skeleton: slots and punctuation only, n - 1 opening and
      n - 1 closing parentheses, ending in ";". */
  lemma {:induction false} PectinateSkeletonShape(n: nat)
    requires n >= 2
    ensures IsSkeleton(PectinateSkeleton(n))
    ensures Text.Count('(', PectinateSkeleton(n)) == n - 1
    ensures Text.Count(')', PectinateSkeleton(n)) == n - 1
    ensures Text.EndsWith(PectinateSkeleton(n), ";")
  {
    var o, c := Opens(n - 1), Closes(n - 1);
    OpensShape(n - 1);
    ClosesShape(n - 1);
    assert IsSkeleton("#:0.5") && IsSkeleton(";");
    SkeletonConcat(o, "#:0.5");
    SkeletonConcat(o + "#:0.5", c);
    SkeletonConcat(o + "#:0.5" + c, ";");
    forall ch | ch in "()"
      ensures Text.Count(ch, PectinateSkeleton(n)) == n - 1
    {
      Text.CountAppend(ch, o, "#:0.5");
      Text.CountAppend(ch, o + "#:0.5", c);
      Text.CountAppend(ch, o + "#:0.5" + c, ";");
      assert Text.Count(ch, "#:0.5") == 0 && Text.Count(ch, ";") == 0;
    }
  }

  // ---------------------------------------------------------------------
  // Star tree over a taxon set (create*Model)
  // ---------------------------------------------------------------------

  /** n slots separated by commas. */
  function SlotList(n: nat): (r: string)
    ensures Slots(r) == n
  {
    if n == 0 then ""
    else
      var p := SlotList(n - 1);
      var next := if n == 1 then [Slot] else "," + [Slot];
      Text.CountAppend(Slot, p, next);
      Text.CountAppend(Slot, ",", [Slot]);
      FillSlot("");
      assert Slots(",") == 0;
      p + next
  }

  /** The skeleton of the star tree over n taxa. */
  function StarSkeleton(n: nat): (r: string)
    ensures Slots(r) == n
  {
    assert Slots("(") == 0 && Slots("):1.0;") == 0;
    Text.CountAppend(Slot, "(", SlotList(n));
    Text.CountAppend(Slot, "(" + SlotList(n), "):1.0;");
    "(" + SlotList(n) + "):1.0;"
  }

  /** The ids joined by "," fill the comma-separated slots. */
  lemma {:induction false} SlotListFills(ids: seq<string>)
    ensures Fill(SlotList(|ids|), ids) == Text.Join(",", ids)
    decreases |ids|
  {
    var n := |ids|;
    if n > 0 {
      var front := ids[..n - 1];
      assert front + [ids[n - 1]] == ids;
      SlotListFills(front);
      FillSlot(ids[n - 1]);
      if n == 1 {
        assert Fill("", []) == "";
        FillConcat("", [Slot], [], [ids[0]]);
        assert "" + [Slot] == [Slot];
        assert [] + [ids[0]] == ids;
      } else {
        assert Slots(",") == 0 && Slots("") == 0;
        FillAround(",", [Slot], "", [ids[n - 1]]);
        assert "," + [Slot] + "" == "," + [Slot];
        FillConcat(SlotList(n - 1), "," + [Slot], front, [ids[n - 1]]);
        JoinSnoc(front, ids[n - 1]);
      }
    }
  }

  lemma {:induction false} JoinSnoc(xs: seq<string>, x: string)
    requires |xs| > 0
    ensures Text.Join(",", xs + [x]) == Text.Join(",", xs) + "," + x
    decreases |xs|
  {
    if |xs| == 1 {
      assert xs + [x] == [xs[0], x];
      assert [xs[0], x][1..] == [x];
    } else {
      assert (xs + [x])[1..] == xs[1..] + [x];
      JoinSnoc(xs[1..], x);
    }
  }

  /** The star tree built in create{Yule,BirthDeath,Coalescent,ConstrainedYule}Model:
      "(" + the ids joined by "," + "):1.0;", i.e. every id once, in order,
      as a leaf of one root. */
  method StarNewick(taxonIds: seq<string>) returns (newick: string)
    ensures newick == "(" + Text.Join(",", taxonIds) + "):1.0;"
    ensures newick == Fill(StarSkeleton(|taxonIds|), taxonIds)
  {
    var sb := "(";
    var i := 0;
    while i < |taxonIds|
      invariant 0 <= i <= |taxonIds|
      invariant sb == "(" + Text.Join(",", taxonIds[..i])
    {
      if i > 0 {
        JoinSnoc(taxonIds[..i], taxonIds[i]);
        sb := sb + ",";
      } else {
        assert taxonIds[..1] == [taxonIds[0]];
      }
      assert taxonIds[..i] + [taxonIds[i]] == taxonIds[..i + 1];
      sb := sb + taxonIds[i];
      i := i + 1;
    }
    sb := sb + "):1.0;";
    assert taxonIds[..i] == taxonIds;
    SlotListFills(taxonIds);
    assert Slots("(") == 0 && Slots("):1.0;") == 0;
    FillAround("(", SlotList(|taxonIds|), "):1.0;", taxonIds);
    newick := sb;
  }
}
