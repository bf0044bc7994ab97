/** The list logic the quality check and consistency check pages share:
    toggling an id in the selection, and the simulated progress counter a
    500 ms interval advances. */
module Selection {

  /** `list.filter(x => x !== id)`. */
  function Remove(list: seq<string>, id: string): (r: seq<string>)
    ensures id !in r
    ensures multiset(r) == multiset(list)[id := 0]
    ensures forall x :: x != id ==> (x in r <==> x in list)
    ensures id !in list ==> r == list
    decreases |list|
  {
    if |list| == 0 then []
    else
      assert list == [list[0]] + list[1..];
      if list[0] == id then Remove(list[1..], id)
      else [list[0]] + Remove(list[1..], id)
  }

  /** Removing from a concatenation removes from each part: the ids that
      stay keep their order. */
  lemma {:induction false} RemoveAppend(a: seq<string>, b: seq<string>, id: string)
    ensures Remove(a + b, id) == Remove(a, id) + Remove(b, id)
    decreases |a|
  {
    if |a| == 0 {
      assert a + b == b;
    } else {
      assert (a + b)[1..] == a[1..] + b;
      RemoveAppend(a[1..], b, id);
    }
  }

  /** The selection handler: a selected id is dropped (every occurrence
      of it), any other id is appended at the end. */
  function Toggle(selected: seq<string>, id: string): (r: seq<string>)
    ensures id in r <==> id !in selected
    ensures forall x :: x != id ==> (x in r <==> x in selected)
    ensures id !in selected ==> r == selected + [id]
    ensures id in selected ==> r == Remove(selected, id)
  {
    if id in selected then Remove(selected, id) else selected + [id]
  }

  /** No id is selected twice. */
  predicate NoDuplicates(s: seq<string>) {
    forall j, k :: 0 <= j < k < |s| ==> s[j] != s[k]
  }

  lemma {:induction false} RemoveKeepsNoDuplicates(s: seq<string>, id: string)
    requires NoDuplicates(s)
    ensures NoDuplicates(Remove(s, id))
    decreases |s|
  {
    if |s| > 0 {
      assert NoDuplicates(s[1..]);
      RemoveKeepsNoDuplicates(s[1..], id);
      if s[0] != id {
        assert s[0] !in s[1..];
        assert s[0] !in multiset(Remove(s[1..], id));
      }
    }
  }

  /** A toggle keeps a duplicate-free selection duplicate-free. */
  lemma ToggleKeepsNoDuplicates(s: seq<string>, id: string)
    requires NoDuplicates(s)
    ensures NoDuplicates(Toggle(s, id))
  {
    if id in s {
      RemoveKeepsNoDuplicates(s, id);
    }
  }

  /** Selecting an id and deselecting it again restores the selection;
      deselecting and reselecting moves it to the end. */
  lemma ToggleTwice(s: seq<string>, id: string)
    ensures id !in s ==> Toggle(Toggle(s, id), id) == s
    ensures id in s ==> Toggle(Toggle(s, id), id) == Remove(s, id) + [id]
  {
    if id !in s {
      RemoveAppend(s, [id], id);
      assert Remove([id], id) == [];
    }
  }

  /** The updater the interval passes to `setProgress`. */
  function Tick(p: int): int {
    if p >= 100 then 100 else p + 10
  }

  /** The interval is cleared on the tick that sees 100 or more. */
  predicate Finishes(p: int) {
    p >= 100
  }

  /** The progress after `n` ticks from 0. */
  function Ticks(n: nat): int {
    if n == 0 then 0 else Tick(Ticks(n - 1))
  }

  /** From 0, the progress climbs by 10 per tick and stays at 100. */
  lemma {:induction false} TicksFromZero(n: nat)
    ensures Ticks(n) == if 10 * n <= 100 then 10 * n else 100
  {
    if n > 0 {
      TicksFromZero(n - 1);
    }
  }

  /** The values shown are multiples of 10 in [0, 100]. */
  lemma TicksOnGrid(n: nat)
    ensures 0 <= Ticks(n) <= 100 && Ticks(n) % 10 == 0
  {
    TicksFromZero(n);
  }

  /** The interval is cleared on the eleventh tick: the first ten raise the
      progress to 100, the eleventh sees it there. */
  lemma FinishesOnEleventhTick(n: nat)
    requires n >= 1
    ensures Finishes(Ticks(n - 1)) <==> n >= 11
  {
    TicksFromZero(n - 1);
  }
}
