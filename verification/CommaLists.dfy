/** Lists kept as one comma-joined string, the way the namespace buckets keep permissions and users. */
module CommaLists {

  function Split(s: string): (items: seq<string>)
    ensures items != []
    ensures forall k :: 0 <= k < |items| ==> ',' !in items[k]
  {
    if s == "" then [""]
    else if s[0] == ',' then [""] + Split(s[1..])
    else
      var rest := Split(s[1..]);
      [[s[0]] + rest[0]] + rest[1..]
  }

  function Join(items: seq<string>): string {
    if items == [] then ""
    else if |items| == 1 then items[0]
    else items[0] + "," + Join(items[1..])
  }

  /** Appending one joined list to another. */
  function Appended(s: string, items: seq<string>): string {
    if |s| > 0 then Join([s, Join(items)]) else Join(items)
  }

  function Without(items: seq<string>, gone: string): seq<string> {
    if items == [] then []
    else (if items[0] == gone then [] else [items[0]]) + Without(items[1..], gone)
  }

  function Removed(s: string, gone: string): string {
    if |s| > 0 then Join(Without(Split(s), gone)) else s
  }

  predicate Holds(s: string, item: string) {
    |s| > 0 && item in Split(s)
  }

  // ----------------------------------------------------- what a list means

  /** The names a joined string stands for. */
  function Names(s: string): set<string> {
    set item | item in Split(s) && item != ""
  }

  function Given(items: seq<string>): set<string> {
    set item | item in items && item != ""
  }

  lemma GrowFirst(c: char, a: seq<string>, b: seq<string>)
    requires a != []
    ensures [[c] + (a + b)[0]] + (a + b)[1..] == ([[c] + a[0]] + a[1..]) + b
  {
  }

  lemma {:induction false} SplitAppends(s: string, t: string)
    ensures Split(s + "," + t) == Split(s) + Split(t)
  {
    var whole := s + "," + t;
    if s == "" {
      assert whole[1..] == t;
    } else {
      var rest := s[1..] + "," + t;
      assert whole[1..] == rest && whole[0] == s[0];
      SplitAppends(s[1..], t);
      GrowFirst(s[0], Split(s[1..]), Split(t));
    }
  }

  lemma {:induction false} SplitOne(s: string)
    requires ',' !in s
    ensures Split(s) == [s]
  {
    if s != "" {
      SplitOne(s[1..]);
      assert [s[0]] + s[1..] == s;
    }
  }

  /** Joining and splitting again gives back any non-empty list of names without commas. */
  lemma {:induction false} SplitJoin(items: seq<string>)
    requires items != []
    requires forall k :: 0 <= k < |items| ==> ',' !in items[k]
    ensures Split(Join(items)) == items
  {
    SplitOne(items[0]);
    if |items| > 1 {
      SplitJoin(items[1..]);
      SplitAppends(items[0], Join(items[1..]));
      assert [items[0]] + items[1..] == items;
    }
  }

  /** The pieces a list falls into when its items are split at their own commas. */
  function Pieces(items: seq<string>): seq<string> {
    if items == [] then [] else Split(items[0]) + Pieces(items[1..])
  }

  lemma {:induction false} SplitJoinPieces(items: seq<string>)
    requires items != []
    ensures Split(Join(items)) == Pieces(items)
  {
    if |items| > 1 {
      SplitJoinPieces(items[1..]);
      SplitAppends(items[0], Join(items[1..]));
    } else {
      assert Pieces(items[1..]) == [];
    }
  }

  lemma {:induction false} PlainPieces(items: seq<string>)
    requires forall k :: 0 <= k < |items| ==> ',' !in items[k]
    ensures Pieces(items) == items
  {
    if items != [] {
      PlainPieces(items[1..]);
      SplitOne(items[0]);
    }
  }

  lemma {:induction false} NamesAppended(s: string, items: seq<string>)
    ensures Names(Appended(s, items)) == Names(s) + Given(Pieces(items))
  {
    var t := Join(items);
    assert Names(t) == Given(Pieces(items)) by {
      if items != [] {
        SplitJoinPieces(items);
      }
    }
    if s != "" {
      SplitAppends(s, t);
      assert [s, t][1..] == [t];
      assert Join([t]) == t;
      assert Appended(s, items) == s + "," + t;
      assert Names(s + "," + t) == Names(s) + Names(t);
    }
  }

  /** Appending adds exactly the names given, if and only if none of them holds a comma. */
  lemma AppendsExactly(s: string, items: seq<string>)
    ensures Names(Appended(s, items)) == Names(s) + Given(items) <==> forall k :: 0 <= k < |items| ==> ',' !in items[k]
  {
    NamesAppended(s, items);
    if forall k :: 0 <= k < |items| ==> ',' !in items[k] {
      PlainPieces(items);
    } else {
      var k :| 0 <= k < |items| && ',' in items[k];
      assert items[k] in Given(items);
      assert items[k] !in Split(Appended(s, items));
    }
  }

  lemma {:induction false} WithoutMembers(items: seq<string>, gone: string)
    ensures forall item :: item in Without(items, gone) <==> item in items && item != gone
  {
    if items != [] {
      WithoutMembers(items[1..], gone);
      assert items == [items[0]] + items[1..];
    }
  }

  lemma WithoutNone(gone: string)
    ensures Without([], gone) == []
  {
  }

  lemma WithoutNext(items: seq<string>, i: nat, gone: string)
    requires i < |items|
    ensures Without(items[i..], gone) == (if items[i] == gone then [] else [items[i]]) + Without(items[i + 1..], gone)
  {
    assert items[i..][1..] == items[i + 1..];
  }

  /** Removing takes away exactly the one name, whatever it is, and keeps every other. */
  lemma RemovesExactly(s: string, gone: string)
    ensures Names(Removed(s, gone)) == Names(s) - {gone}
  {
    if s != "" {
      var kept := Without(Split(s), gone);
      WithoutMembers(Split(s), gone);
      if kept != [] {
        forall k | 0 <= k < |kept|
          ensures ',' !in kept[k]
        {
          assert kept[k] in Split(s);
        }
        SplitJoin(kept);
      }
    }
  }

  /** Removing a name just appended leaves what was there before, less that name. */
  lemma AppendThenRemove(s: string, name: string)
    requires ',' !in name
    ensures Names(Removed(Appended(s, [name]), name)) == Names(s) - {name}
  {
    AppendsExactly(s, [name]);
    RemovesExactly(Appended(s, [name]), name);
  }
}
