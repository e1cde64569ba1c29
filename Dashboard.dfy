/** The administrator's dashboard: the list of chamadas shown one page at a
    time, the row of page buttons, and the "create chamada" button. */
module Dashboard {
  import opened Common
  import opened ChamadaModel

  /** `index` clamped into `0..n`. */
  function Clamp(index: int, n: nat): (r: nat)
    ensures r <= n
    ensures 0 <= index <= n ==> r == index
  {
    if index < 0 then 0 else if index > n then n else index
  }

  /** `items.filter((_, i) => keep(i))` for the elements numbered from `offset`. */
  function FilterByIndex<T>(items: seq<T>, keep: int -> bool, offset: int): seq<T>
    decreases |items|
  {
    if items == [] then []
    else (if keep(offset) then [items[0]] else []) + FilterByIndex(items[1..], keep, offset + 1)
  }

  /** Filtering by an interval of indices keeps exactly the slice of those
      indices, in their original order. */
  lemma {:induction false} FilterByInterval<T>(items: seq<T>, keep: int -> bool, offset: int, lo: int, hi: int)
    requires lo <= hi
    requires forall i :: keep(i) <==> lo <= i < hi
    ensures Clamp(lo - offset, |items|) <= Clamp(hi - offset, |items|)
    ensures FilterByIndex(items, keep, offset) ==
      items[Clamp(lo - offset, |items|)..Clamp(hi - offset, |items|)]
    decreases |items|
  {
    if items != [] {
      var n := |items|;
      var tail := items[1..];
      FilterByInterval(tail, keep, offset + 1, lo, hi);
      var a, b := Clamp(lo - offset - 1, n - 1), Clamp(hi - offset - 1, n - 1);
      var rest := FilterByIndex(tail, keep, offset + 1);
      assert rest == tail[a..b];
      assert FilterByIndex(items, keep, offset) ==
        (if keep(offset) then [items[0]] else []) + rest;
      if lo <= offset < hi {
        assert keep(offset);
        assert Clamp(lo - offset, n) == 0 && Clamp(hi - offset, n) == b + 1;
        SliceAfterHead(items, 0, b);
      } else {
        assert !keep(offset);
        if offset >= hi {
          assert Clamp(lo - offset, n) == 0 == Clamp(hi - offset, n);
        } else {
          assert Clamp(lo - offset, n) == a + 1 && Clamp(hi - offset, n) == b + 1;
          SliceAfterHead(items, a + 1, b);
        }
      }
    }
  }

  /** Slicing `items` from `start >= 1`, or from 0 with the head in front, is
      slicing its tail one position lower. */
  lemma SliceAfterHead<T>(items: seq<T>, start: nat, b: nat)
    requires items != [] && start <= b + 1 <= |items|
    ensures start == 0 ==> items[0..b + 1] == [items[0]] + items[1..][0..b]
    ensures start >= 1 ==> items[start..b + 1] == items[1..][start - 1..b]
  {
    var tail := items[1..];
    if start == 0 {
      var lhs, rhs := items[0..b + 1], [items[0]] + tail[0..b];
      assert |lhs| == |rhs|;
      forall k | 0 <= k < |lhs| ensures lhs[k] == rhs[k] {
        if k > 0 {
          assert rhs[k] == tail[k - 1];
        }
      }
    } else {
      var lhs, rhs := items[start..b + 1], tail[start - 1..b];
      assert |lhs| == |rhs|;
      forall k | 0 <= k < |lhs| ensures lhs[k] == rhs[k] {
        assert rhs[k] == tail[start - 1 + k];
      }
    }
  }

  /** The row filter as written: index `i` is listed on page `page` when
      `i + 1 > page * 10 && i + 1 < page * 10 + 10`. */
  predicate ListedOnPage(i: int, page: int)
  {
    i + 1 > page * 10 && i + 1 < page * 10 + 10
  }

  /** The rows of page `page`: the items at indices `10 * page` through
      `10 * page + 8`, in their original order; at most nine rows. */
  function PageRows<T>(items: seq<T>, page: nat): (r: seq<T>)
    ensures Clamp(10 * page, |items|) <= Clamp(10 * page + 9, |items|)
    ensures r == items[Clamp(10 * page, |items|)..Clamp(10 * page + 9, |items|)]
    ensures |r| <= 9
  {
    FilterByInterval(items, i => ListedOnPage(i, page), 0, 10 * page, 10 * page + 9);
    FilterByIndex(items, i => ListedOnPage(i, page), 0)
  }

  /** The positions `0..n`, to speak of which rows a page lists. */
  function Indices(n: nat): (r: seq<nat>)
    ensures |r| == n && forall i :: 0 <= i < n ==> r[i] == i
  {
    seq(n, i => i)
  }

  /** Index `i` is listed on page `page` exactly when `10 * page <= i <= 10 * page + 8`. */
  lemma ListedIndices(n: nat, page: nat, i: nat)
    requires i < n
    ensures i in PageRows(Indices(n), page) <==> 10 * page <= i <= 10 * page + 8
  {
    var rows := PageRows(Indices(n), page);
    var lo, hi := Clamp(10 * page, n), Clamp(10 * page + 9, n);
    assert rows == Indices(n)[lo..hi];
    if 10 * page <= i <= 10 * page + 8 {
      assert rows[i - lo] == i;
    }
    if i in rows {
      var k :| 0 <= k < |rows| && rows[k] == i;
      assert rows[k] == Indices(n)[lo + k];
    }
  }

  /** No page ever lists a row whose index ends in 9. */
  lemma RowNineNeverListed(n: nat, page: nat, i: nat)
    requires i < n && i % 10 == 9
    ensures i !in PageRows(Indices(n), page)
  {
    var q := i / 10;
    assert i == 10 * q + 9;
    assert !(10 * page <= i <= 10 * page + 8) by {
      if page <= q {
        assert 10 * page + 8 < i;
      } else {
        assert 10 * page >= 10 * q + 10;
      }
    }
    ListedIndices(n, page, i);
  }

  /** Ten chamadas: one page button, nine rows on its page, and the tenth
      chamada on no page at all. */
  lemma TenChamadasListNine()
    ensures PageCount(10) == 1
    ensures PageRows(Indices(10), 0) == [0, 1, 2, 3, 4, 5, 6, 7, 8]
    ensures forall page: nat :: 9 !in PageRows(Indices(10), page)
  {
    assert Indices(10)[0..9] == [0, 1, 2, 3, 4, 5, 6, 7, 8];
    forall page: nat ensures 9 !in PageRows(Indices(10), page) {
      RowNineNeverListed(10, page, 9);
    }
  }

  /** The evidently intended filter, `i + 1 <= page * 10 + 10`: pages of ten. */
  predicate IntendedOnPage(i: int, page: int)
  {
    i + 1 > page * 10 && i + 1 <= page * 10 + 10
  }

  function IntendedPageRows<T>(items: seq<T>, page: nat): (r: seq<T>)
    ensures Clamp(10 * page, |items|) <= Clamp(10 * page + 10, |items|)
    ensures r == items[Clamp(10 * page, |items|)..Clamp(10 * page + 10, |items|)]
    ensures |r| <= 10
  {
    FilterByInterval(items, i => IntendedOnPage(i, page), 0, 10 * page, 10 * page + 10);
    FilterByIndex(items, i => IntendedOnPage(i, page), 0)
  }

  /** With the intended filter every row is listed on exactly one page, the
      page `i / 10`, and that page has a button. */
  lemma IntendedPagesPartition(n: nat, i: nat, page: nat)
    requires i < n
    ensures i in IntendedPageRows(Indices(n), page) <==> page == i / 10
    ensures i / 10 < PageCount(n)
  {
    var rows := IntendedPageRows(Indices(n), page);
    var lo := Clamp(10 * page, n);
    assert rows == Indices(n)[lo..Clamp(10 * page + 10, n)];
    if page == i / 10 {
      assert 10 * page <= i < 10 * page + 10;
      assert rows[i - lo] == i;
    }
    if i in rows {
      var k :| 0 <= k < |rows| && rows[k] == i;
      assert rows[k] == Indices(n)[lo + k];
      assert 10 * page <= i < 10 * page + 10;
    }
  }

  /** `Math.ceil(n / 10)`: the least number of pages of ten that hold `n` rows. */
  function PageCount(n: nat): (r: nat)
    ensures 10 * r >= n
    ensures r > 0 ==> 10 * (r - 1) < n
  {
    (n + 9) / 10
  }

  /** The labels of the page buttons, `1..PageCount(n)`; none for an empty list. */
  function PageLabels(n: nat): (r: seq<nat>)
    ensures |r| == PageCount(n)
    ensures n == 0 <==> r == []
    ensures forall i :: 0 <= i < |r| ==> r[i] == i + 1
  {
    seq(PageCount(n), i => i + 1)
  }

  /** A page has a button exactly when it lists at least one row, with the
      filter as written and with the intended one. */
  lemma ButtonsMatchPages<T>(items: seq<T>, page: nat)
    ensures page < PageCount(|items|) <==> PageRows(items, page) != []
    ensures page < PageCount(|items|) <==> IntendedPageRows(items, page) != []
  {
  }

  /** The dashboard's state: the chamadas fetched, the position used to
      create a chamada (both 0 at first), and the page shown. */
  datatype DashboardState = DashboardState(chamadas: seq<Chamada>, lag: real, long: real, page: nat)

  const InitialDashboard := DashboardState([], 0.0, 0.0, 0)

  /** The rows on screen: the current page under the filter as written. */
  function VisibleRows(s: DashboardState): (r: seq<Chamada>)
    ensures Clamp(10 * s.page, |s.chamadas|) <= Clamp(10 * s.page + 9, |s.chamadas|)
    ensures r == s.chamadas[Clamp(10 * s.page, |s.chamadas|)..Clamp(10 * s.page + 9, |s.chamadas|)]
  {
    PageRows(s.chamadas, s.page)
  }

  /** Button `i` is drawn highlighted when it is the current page. */
  predicate Highlighted(s: DashboardState, button: nat)
  {
    s.page == button
  }

  /** A click on button `i`. */
  function SelectPage(s: DashboardState, button: nat): (r: DashboardState)
    ensures r.page == button
    ensures r.chamadas == s.chamadas && r.lag == s.lag && r.long == s.long
    ensures forall b: nat :: Highlighted(r, b) <==> b == button
  {
    s.(page := button)
  }

  /** The list fetch resolved: the list is replaced only by a truthy result
      (an empty array is truthy); an absent result changes nothing. */
  function OnChamadasFetched(s: DashboardState, result: Option<seq<Chamada>>): (r: DashboardState)
    ensures result.None? ==> r == s
    ensures result.Some? ==> r.chamadas == result.value
    ensures r.page == s.page && r.lag == s.lag && r.long == s.long
  {
    if result.None? then s else s.(chamadas := result.value)
  }

  /** The success callback of the dashboard's position request. */
  function OnPositionFix(s: DashboardState, latitude: real, longitude: real): (r: DashboardState)
    ensures r.lag == latitude && r.long == longitude
    ensures r.chamadas == s.chamadas && r.page == s.page
  {
    s.(lag := latitude, long := longitude)
  }

  /** The create call made by "Criar Chamada" and the page opened once the
      backend has answered. */
  datatype CreateCall = CreateCall(lag: real, long: real, navigateTo: string)

  /** "Criar Chamada" with the backend answering `created` and the position
      request it starts answering `fix` (None when geolocation is missing or
      fails) while the create call is awaited. The call takes the position
      held when the button was clicked; the fix only updates the state. */
  function CriarChamada(s: DashboardState, fix: Option<(real, real)>, created: Chamada): (r: (DashboardState, CreateCall))
    ensures r.1.lag == s.lag && r.1.long == s.long
    ensures r.1.navigateTo == "/chamada/" + created.id
    ensures fix.None? ==> r.0 == s
    ensures fix.Some? ==> r.0 == s.(lag := fix.value.0, long := fix.value.1)
  {
    var after := if fix.Some? then OnPositionFix(s, fix.value.0, fix.value.1) else s;
    (after, CreateCall(s.lag, s.long, "/chamada/" + created.id))
  }

  /** The fix requested by a click never reaches that click's create call;
      it is the next click that uses it. */
  lemma FixServesNextClick(s: DashboardState, fix: (real, real), created: Chamada, next: Chamada)
    ensures CriarChamada(s, Some(fix), created).1 == CriarChamada(s, None, created).1
    ensures var second := CriarChamada(CriarChamada(s, Some(fix), created).0, None, next).1;
      second.lag == fix.0 && second.long == fix.1
  {
  }

  /** The first chamada created from a fresh dashboard is at (0, 0), whatever
      the list fetch, the page buttons and the position request did. */
  lemma CreateBeforeFixUsesZero(result: Option<seq<Chamada>>, button: nat, fix: Option<(real, real)>, created: Chamada)
    ensures var call := CriarChamada(SelectPage(OnChamadasFetched(InitialDashboard, result), button), fix, created).1;
      call.lag == 0.0 && call.long == 0.0
  {
  }
}
