/** Keyset pagination: a page is what comes after a cursor, and names the next cursor if it had to stop. */
module Keyset {
  import opened Prelude

  ghost predicate Increasing(keys: seq<int>) {
    forall i, j :: 0 <= i < j < |keys| ==> keys[i] < keys[j]
  }

  predicate Past(key: int, cursor: Option<int>) {
    cursor.None? || key > cursor.value
  }

  function After(keys: seq<int>, cursor: Option<int>): seq<int> {
    if keys == [] || Past(keys[0], cursor) then keys else After(keys[1..], cursor)
  }

  datatype Page = Page(keys: seq<int>, next: Option<int>)

  function PageOf(keys: seq<int>, cursor: Option<int>, limit: nat): Page
    requires limit > 0
  {
    var rest := After(keys, cursor);
    if |rest| > limit then Page(rest[..limit], Some(rest[limit - 1])) else Page(rest, None)
  }

  /** The matching keys as they are when one page is asked for, and its limit. */
  datatype View = View(keys: seq<int>, limit: nat)

  ghost predicate ValidView(view: View) {
    view.limit > 0 && Increasing(view.keys)
  }

  ghost predicate ValidViews(views: seq<View>) {
    forall i :: 0 <= i < |views| ==> ValidView(views[i])
  }

  /** What a client collects that follows the cursors; views[i] is what its i-th page sees. */
  function Collected(views: seq<View>, cursor: Option<int>): seq<int>
    requires forall i :: 0 <= i < |views| ==> views[i].limit > 0
    decreases |views|
  {
    if views == [] then []
    else
      var page := PageOf(views[0].keys, cursor, views[0].limit);
      page.keys + if page.next.None? then [] else Collected(views[1..], page.next)
  }

  /** The walk came to a last page. */
  predicate Finished(views: seq<View>, cursor: Option<int>)
    requires forall i :: 0 <= i < |views| ==> views[i].limit > 0
    decreases |views|
  {
    views != []
    && var next := PageOf(views[0].keys, cursor, views[0].limit).next; next.None? || Finished(views[1..], next)
  }

  lemma {:induction false} AfterAre(keys: seq<int>, cursor: Option<int>)
    requires Increasing(keys)
    ensures Increasing(After(keys, cursor))
    ensures forall k :: k in After(keys, cursor) <==> k in keys && Past(k, cursor)
  {
    if keys != [] && !Past(keys[0], cursor) {
      AfterAre(keys[1..], cursor);
      assert forall k :: k in keys <==> k == keys[0] || k in keys[1..];
    }
  }

  lemma {:induction false} AfterAgain(keys: seq<int>, cursor: Option<int>, n: nat)
    requires Increasing(keys) && 0 < n <= |After(keys, cursor)|
    ensures After(keys, Some(After(keys, cursor)[n - 1])) == After(keys, cursor)[n..]
  {
    if keys != [] && !Past(keys[0], cursor) {
      AfterAre(keys, cursor);
      assert After(keys, cursor)[n - 1] in After(keys, cursor);
      AfterAgain(keys[1..], cursor, n);
    } else {
      SkipTo(keys, n);
    }
  }

  lemma {:induction false} SkipTo(keys: seq<int>, n: nat)
    requires Increasing(keys) && 0 < n <= |keys|
    ensures After(keys, Some(keys[n - 1])) == keys[n..]
  {
    if n == 1 {
      assert After(keys[1..], Some(keys[0])) == keys[1..];
    } else {
      SkipTo(keys[1..], n - 1);
      assert keys[1..][n - 1..] == keys[n..];
    }
  }

  lemma Joined(front: seq<int>, back: seq<int>)
    requires Increasing(front) && Increasing(back) && front != []
    requires forall k :: k in back ==> k > front[|front| - 1]
    ensures Increasing(front + back)
  {
    forall i, j | 0 <= i < j < |front + back| ensures (front + back)[i] < (front + back)[j] {
      if i < |front| <= j {
        assert back[j - |front|] in back;
        assert front[i] <= front[|front| - 1];
      }
    }
  }

  /** No key comes twice, and all come in order, whatever happens to the table between pages. */
  lemma {:induction false} WalkIncreases(views: seq<View>, cursor: Option<int>)
    requires ValidViews(views)
    ensures Increasing(Collected(views, cursor))
    ensures forall k :: k in Collected(views, cursor) ==>
      Past(k, cursor) && exists i :: 0 <= i < |views| && k in views[i].keys
    decreases |views|
  {
    if views != [] {
      assert ValidView(views[0]);
      PageIs(views[0], cursor);
      hide PageOf, ValidView;
      var page := PageOf(views[0].keys, cursor, views[0].limit);
      if page.next.Some? {
        assert forall i :: 0 <= i < |views[1..]| ==> views[1..][i] == views[i + 1];
        WalkIncreases(views[1..], page.next);
        forall k | k in Collected(views[1..], page.next)
          ensures Past(k, cursor) && exists i :: 0 <= i < |views| && k in views[i].keys
        {
          var i :| 0 <= i < |views[1..]| && k in views[1..][i].keys;
          assert views[i + 1] == views[1..][i];
        }
        Joined(page.keys, Collected(views[1..], page.next));
      }
    }
  }

  /** A page ascends past its cursor, within the view; the next cursor is its last key. */
  lemma PageIs(view: View, cursor: Option<int>)
    requires ValidView(view)
    ensures var page := PageOf(view.keys, cursor, view.limit);
      && Increasing(page.keys) && (forall k :: k in page.keys ==> Past(k, cursor) && k in view.keys)
      && (page.next.Some? ==> page.keys != [] && page.next.value == page.keys[|page.keys| - 1]
                              && Past(page.next.value, cursor))
  {
    AfterAre(view.keys, cursor);
    var rest, page := After(view.keys, cursor), PageOf(view.keys, cursor, view.limit);
    hide After;
    assert forall k :: k in page.keys ==> k in rest;
    if page.next.Some? {
      assert page.keys[view.limit - 1] in page.keys;
    }
  }

  /** A finished walk has every key that was there for each of its pages. */
  lemma {:induction false} WalkMissesNothing(views: seq<View>, cursor: Option<int>, k: int)
    requires ValidViews(views) && Finished(views, cursor) && Past(k, cursor)
    requires forall i :: 0 <= i < |views| ==> k in views[i].keys
    ensures k in Collected(views, cursor)
    decreases |views|
  {
    assert ValidView(views[0]);
    AfterAre(views[0].keys, cursor);
    var rest := After(views[0].keys, cursor);
    var page := PageOf(views[0].keys, cursor, views[0].limit);
    assert k in rest;
    if page.next.Some? && !Past(k, page.next) {
      var i :| 0 <= i < |rest| && rest[i] == k;
      assert page.keys[i] == k;
    } else if page.next.Some? {
      assert forall i :: 0 <= i < |views[1..]| ==> ValidView(views[1..][i]) && k in views[1..][i].keys;
      WalkMissesNothing(views[1..], page.next, k);
    }
  }

  function Limits(views: seq<View>): nat {
    if views == [] then 0 else views[0].limit + Limits(views[1..])
  }

  /** On a fixed table a walk ends exactly when its pages have room for the rest, and its pages then are the rest. */
  lemma {:induction false} FixedWalk(views: seq<View>, keys: seq<int>, cursor: Option<int>)
    requires ValidViews(views) && forall i :: 0 <= i < |views| ==> views[i].keys == keys
    ensures Finished(views, cursor) <==> views != [] && |After(keys, cursor)| <= Limits(views)
    ensures Finished(views, cursor) ==> Collected(views, cursor) == After(keys, cursor)
    decreases |views|
  {
    if views != [] {
      assert ValidView(views[0]);
      var rest, limit := After(keys, cursor), views[0].limit;
      if |rest| > limit {
        AfterAgain(keys, cursor, limit);
        assert forall i :: 0 <= i < |views[1..]| ==> ValidView(views[1..][i]) && views[1..][i].keys == keys;
        FixedWalk(views[1..], keys, Some(rest[limit - 1]));
        assert rest == rest[..limit] + rest[limit..];
      }
    }
  }
}
