// Duplicate-free lists of pod names, as the containers keep them.
module NameLists {

  ghost predicate NoDup(names: seq<string>) {
    forall i, j :: 0 <= i < j < |names| ==> names[i] != names[j]
  }

  function Append(names: seq<string>, n: string): seq<string> {
    if n in names then names else names + [n]
  }

  function Without(names: seq<string>, n: string): seq<string> {
    if names == [] then []
    else if names[0] == n then Without(names[1..], n)
    else [names[0]] + Without(names[1..], n)
  }

  function Reverse(names: seq<string>): (r: seq<string>)
    ensures |r| == |names|
  {
    if names == [] then [] else [names[|names| - 1]] + Reverse(names[..|names| - 1])
  }

  ghost function ToSet(names: seq<string>): set<string> {
    set n | n in names
  }

  lemma AppendKeeps(names: seq<string>, n: string)
    requires NoDup(names)
    ensures NoDup(Append(names, n))
    ensures forall m :: m in Append(names, n) <==> m in names || m == n
  {
  }

  lemma {:induction false} WithoutKeeps(names: seq<string>, n: string)
    ensures forall m :: m in Without(names, n) <==> m in names && m != n
    ensures NoDup(names) ==> NoDup(Without(names, n))
  {
    if names != [] {
      WithoutKeeps(names[1..], n);
      assert names == [names[0]] + names[1..];
      if NoDup(names) && names[0] != n {
        var rest := Without(names[1..], n);
        forall i, j | 0 <= i < j < |rest| + 1 ensures ([names[0]] + rest)[i] != ([names[0]] + rest)[j] {
          assert rest[j - 1] in rest;
        }
      }
    }
  }

  lemma {:induction false} WithoutAbsent(names: seq<string>, n: string)
    requires n !in names
    ensures Without(names, n) == names
  {
    if names != [] {
      assert names == [names[0]] + names[1..];
      WithoutAbsent(names[1..], n);
    }
  }

  lemma {:induction false} ReverseAt(names: seq<string>)
    ensures forall i :: 0 <= i < |names| ==> Reverse(names)[i] == names[|names| - 1 - i]
  {
    if names != [] { ReverseAt(names[..|names| - 1]); }
  }

  lemma ReverseKeeps(names: seq<string>)
    ensures forall m :: m in Reverse(names) <==> m in names
    ensures NoDup(names) ==> NoDup(Reverse(names))
  {
    ReverseAt(names);
    forall m | m in names ensures m in Reverse(names) {
      var i :| 0 <= i < |names| && names[i] == m;
      assert Reverse(names)[|names| - 1 - i] == m;
    }
  }

  // A duplicate-free list cut in two: every member is on exactly one side.
  lemma CutIsPartition(names: seq<string>, k: nat)
    requires NoDup(names) && k <= |names|
    ensures NoDup(names[..k]) && NoDup(names[k..])
    ensures forall m :: m in names <==> m in names[..k] || m in names[k..]
    ensures forall m :: !(m in names[..k] && m in names[k..])
  {
    assert names == names[..k] + names[k..];
  }

  lemma {:induction false} SetOfDistinct(names: seq<string>)
    requires NoDup(names)
    ensures |ToSet(names)| == |names|
  {
    if names != [] {
      SetOfDistinct(names[..|names| - 1]);
      assert ToSet(names) == ToSet(names[..|names| - 1]) + {names[|names| - 1]};
    }
  }

  lemma NoMembers(names: seq<string>)
    ensures ToSet(names) == {} <==> names == []
  {
    if names != [] { assert names[0] in ToSet(names); }
  }

  lemma LastIsNew(rest: seq<string>, last: string)
    ensures NoDup(rest + [last]) <==> NoDup(rest) && last !in rest
  {
    var names := rest + [last];
    assert names[|rest|] == last;
    forall i | 0 <= i < |rest| ensures names[i] == rest[i] {}
  }

  lemma {:induction false} NoDupCounts(names: seq<string>)
    ensures NoDup(names) <==> forall n :: multiset(names)[n] <= 1
  {
    if names != [] {
      var last := names[|names| - 1];
      var rest := names[..|names| - 1];
      assert names == rest + [last];
      NoDupCounts(rest);
      assert last in rest <==> multiset(rest)[last] > 0;
      assert multiset(names) == multiset(rest) + multiset{last};
      assert NoDup(names) <==> NoDup(rest) && last !in rest by { LastIsNew(rest, last); }
      hide NoDup;
      forall n ensures multiset(names)[n] == multiset(rest)[n] + if n == last then 1 else 0 {}
      if NoDup(rest) && last !in rest {
        forall n ensures multiset(names)[n] <= 1 {}
      }
      if forall n :: multiset(names)[n] <= 1 {
        forall n ensures multiset(rest)[n] <= 1 {
          assert multiset(names)[n] <= 1;
        }
        assert multiset(names)[last] <= 1;
      }
    }
  }
}
