/** Keyset pagination of a wallet's ledger, newest first, while movements keep being committed. */
module Pagination {
  import opened Text
  import opened Wrappers
  import opened Monetary
  import opened Model
  import opened Invariant
  import opened Guards

  // ----- The query -----

  datatype Cursor = Cursor(wallet: string, version: int64, entry: string)

  /** `(wallet_version, id) < (version, entry)`. */
  predicate Precedes(version: int64, entry: string, than: int64, thanEntry: string) {
    version < than || (version == than && TextLess(entry, thanEntry))
  }

  predicate Newer(e: Entry, f: Entry) {
    Precedes(f.version, f.id, e.version, e.id)
  }

  predicate Matches(e: Entry, wallet: string, after: Option<Cursor>) {
    e.wallet == wallet && (after.Some? ==> Precedes(e.version, e.id, after.value.version, after.value.entry))
  }

  /** The WHERE clause, in table order. */
  function Matching(ledger: seq<Entry>, wallet: string, after: Option<Cursor>): seq<Entry> {
    if ledger == [] then []
    else
      var n := |ledger| - 1;
      Matching(ledger[..n], wallet, after) + if Matches(ledger[n], wallet, after) then [ledger[n]] else []
  }

  function InsertNewest(e: Entry, s: seq<Entry>): seq<Entry> {
    if s == [] || !Newer(s[0], e) then [e] + s else [s[0]] + InsertNewest(e, s[1..])
  }

  /** The ORDER BY clause. */
  function NewestFirst(s: seq<Entry>): seq<Entry> {
    if s == [] then [] else InsertNewest(s[|s| - 1], NewestFirst(s[..|s| - 1]))
  }

  function Take(s: seq<Entry>, n: nat): (r: seq<Entry>)
    ensures |r| == if |s| < n then |s| else n
  {
    if |s| <= n then s else s[..n]
  }

  /** `ListByWallet`: the rows arrive one by one and are appended. */
  method ListByWallet(ledger: seq<Entry>, wallet: string, after: Option<Cursor>, limit: nat) returns (entries: seq<Entry>)
    ensures entries == Take(NewestFirst(Matching(ledger, wallet, after)), limit)
  {
    var rows := NewestFirst(Matching(ledger, wallet, after));
    entries := [];
    while |entries| < limit && |entries| < |rows|
      invariant |entries| <= |rows| && |entries| <= limit
      invariant entries == rows[..|entries|]
    {
      entries := entries + [rows[|entries|]];
    }
  }

  datatype Page = Page(entries: seq<Entry>, next: Option<Cursor>)

  datatype ListError = InvalidInput

  predicate CursorValid(c: Cursor, wallet: string) {
    c.wallet == wallet && c.version >= 1 && ValidUuid(c.entry)
  }

  /** What a page holds: the newest matching entries, and a cursor exactly when more match. */
  function PageOf(ledger: seq<Entry>, wallet: string, after: Option<Cursor>, limit: nat): Page
    requires limit >= 1
  {
    var rows := NewestFirst(Matching(ledger, wallet, after));
    if |rows| <= limit then Page(rows, None)
    else Page(rows[..limit], Some(Cursor(wallet, rows[limit - 1].version, rows[limit - 1].id)))
  }

  /** `ListLedger`: asks for one entry more than the page holds. */
  method ListLedger(ledger: seq<Entry>, wallet: string, after: Option<Cursor>, limit: int) returns (r: Result<Page, ListError>)
    ensures r.Ok? <==> ValidUuid(wallet) && 1 <= limit <= 100 && (after.Some? ==> CursorValid(after.value, wallet))
    ensures r.Ok? <==>
            && ValidUuid(wallet) && 1 <= limit <= 100
            && (after.Some? ==> after.value.wallet == wallet && after.value.version >= 1 && ValidUuid(after.value.entry))
    ensures r.Ok? ==> |r.value.entries| <= limit && (r.value.next.Some? ==> |r.value.entries| == limit)
    ensures r.Ok? ==> r.value == PageOf(ledger, wallet, after, limit)
  {
    if !ValidUuid(wallet) || limit < 1 || limit > 100 {
      return Err(InvalidInput);
    }
    if after.Some? && !CursorValid(after.value, wallet) {
      return Err(InvalidInput);
    }
    var entries := ListByWallet(ledger, wallet, after, limit + 1);
    var page := Page(entries, None);
    if |entries| > limit {
      var last := entries[limit - 1];
      page := Page(entries[..limit], Some(Cursor(wallet, last.version, last.id)));
    }
    r := Ok(page);
  }

  // ----- The order of the query is an order -----

  /** Newest first, whatever the table holds. */
  predicate Descending(s: seq<Entry>) {
    forall i, j :: 0 <= i < j < |s| ==> !Newer(s[j], s[i])
  }

  /** Two entries are the same place in the order, or exactly one is newer: by version, then by id. */
  lemma NewerIsTotal(e: Entry, f: Entry)
    ensures e.version > f.version ==> Newer(e, f) && !Newer(f, e)
    ensures e.version == f.version && e.id != f.id ==> (Newer(e, f) <==> TextLess(f.id, e.id)) && (Newer(e, f) <==> !Newer(f, e))
    ensures e.version == f.version && e.id == f.id ==> !Newer(e, f)
  {
    TextLessTotal(e.id, f.id);
  }

  /** If `f` is not newer than `e`, and `e` not newer than `d`, then `f` is not newer than `d`. */
  lemma NewerOrders(d: Entry, e: Entry, f: Entry)
    requires !Newer(e, d) && !Newer(f, e)
    ensures !Newer(f, d)
  {
    if Newer(f, d) && d.version == f.version {
      TextLessTotal(d.id, e.id);
      TextLessTotal(e.id, f.id);
      TextLessTotal(d.id, f.id);
      if d.id != e.id && e.id != f.id {
        TextLessTransitive(f.id, e.id, d.id);
      }
    }
  }

  lemma HeadFirst(e: Entry, s: seq<Entry>)
    requires Descending(s) && (s != [] ==> !Newer(s[0], e))
    ensures Descending([e] + s)
  {
    var r := [e] + s;
    forall i, j | 0 <= i < j < |r| ensures !Newer(r[j], r[i]) {
      if i == 0 && j > 1 {
        NewerOrders(e, s[0], s[j - 1]);
      }
    }
  }

  lemma {:induction false} InsertKeeps(e: Entry, s: seq<Entry>)
    ensures multiset(InsertNewest(e, s)) == multiset(s) + multiset{e}
  {
    if s != [] && Newer(s[0], e) {
      InsertKeeps(e, s[1..]);
      assert s == [s[0]] + s[1..];
    }
  }

  lemma NewerAsymmetric(e: Entry, f: Entry)
    requires Newer(e, f)
    ensures !Newer(f, e)
  {
    TextLessTotal(e.id, f.id);
  }

  lemma {:induction false} InsertSorts(e: Entry, s: seq<Entry>)
    requires Descending(s)
    ensures Descending(InsertNewest(e, s))
  {
    if s == [] || !Newer(s[0], e) {
      HeadFirst(e, s);
    } else {
      InsertSorts(e, s[1..]);
      var t := InsertNewest(e, s[1..]);
      InsertKeeps(e, s[1..]);
      NewerAsymmetric(s[0], e);
      assert t[0] in multiset(t);
      assert t[0] == e || t[0] in multiset(s[1..]);
      HeadFirst(s[0], t);
    }
  }

  /** The ordering clause sorts: the same rows, newest first. */
  lemma {:induction false} NewestFirstSorts(s: seq<Entry>)
    ensures Descending(NewestFirst(s)) && multiset(NewestFirst(s)) == multiset(s)
  {
    if s != [] {
      var n := |s| - 1;
      NewestFirstSorts(s[..n]);
      InsertSorts(s[n], NewestFirst(s[..n]));
      InsertKeeps(s[n], NewestFirst(s[..n]));
      assert s == s[..n] + [s[n]];
    }
  }

  // ----- Pages of one wallet -----

  function Reversed(s: seq<Entry>): (r: seq<Entry>)
    ensures |r| == |s|
  {
    if s == [] then [] else [s[|s| - 1]] + Reversed(s[..|s| - 1])
  }

  /** The versions of a wallet's entries in commit order rise. */
  predicate Rising(es: seq<Entry>) {
    forall i, j :: 0 <= i < j < |es| ==> es[i].version < es[j].version
  }

  lemma {:induction false} RisingReverses(es: seq<Entry>)
    requires Rising(es)
    ensures NewestFirst(es) == Reversed(es)
  {
    if es != [] {
      var n := |es| - 1;
      RisingReverses(es[..n]);
      if n > 0 {
        assert NewestFirst(es[..n])[0] == es[n - 1];
      }
    }
  }

  lemma {:induction false} MatchingAll(ledger: seq<Entry>, wallet: string)
    ensures Matching(ledger, wallet, None) == EntriesOf(ledger, wallet)
  {
    if ledger != [] {
      MatchingAll(ledger[..|ledger| - 1], wallet);
    }
  }

  /** The entries of a wallet that precede a cursor, out of its entries in commit order. */
  function Below(es: seq<Entry>, c: Cursor): seq<Entry> {
    if es == [] then []
    else
      var n := |es| - 1;
      Below(es[..n], c) + if Precedes(es[n].version, es[n].id, c.version, c.entry) then [es[n]] else []
  }

  lemma {:induction false} MatchingBelow(ledger: seq<Entry>, wallet: string, c: Cursor)
    ensures Matching(ledger, wallet, Some(c)) == Below(EntriesOf(ledger, wallet), c)
  {
    if ledger != [] {
      var n := |ledger| - 1;
      MatchingBelow(ledger[..n], wallet, c);
      var es := EntriesOf(ledger[..n], wallet);
      if ledger[n].wallet == wallet {
        assert (es + [ledger[n]])[..|es|] == es;
      } else {
        assert EntriesOf(ledger, wallet) == es;
      }
    }
  }

  /** A cursor at entry `m` cuts off exactly the entries before it, however many follow. */
  lemma {:induction false} BelowIsPrefix(es: seq<Entry>, m: nat, n: nat, c: Cursor)
    requires Rising(es) && m < |es| && n <= |es| && c.version == es[m].version && c.entry == es[m].id
    ensures Below(es[..n], c) == if n <= m then es[..n] else es[..m]
  {
    if n > 0 {
      BelowIsPrefix(es, m, n - 1, c);
      assert es[..n][..n - 1] == es[..n - 1];
      TextLessIrreflexive(es[m].id);
    }
  }

  lemma {:induction false} ReversedOf(es: seq<Entry>, k: nat)
    requires k < |es|
    ensures Reversed(es)[k] == es[|es| - 1 - k]
  {
    if k > 0 {
      ReversedOf(es[..|es| - 1], k - 1);
    }
  }

  lemma {:induction false} ReversedSplits(es: seq<Entry>, k: nat)
    requires k <= |es|
    ensures Reversed(es)[k..] == Reversed(es[..|es| - k])
  {
    if k > 0 {
      ReversedSplits(es[..|es| - 1], k - 1);
      assert es[..|es| - 1][..|es| - k] == es[..|es| - k];
    } else {
      assert es[..|es|] == es;
    }
  }

  /** The page after the entry `m` (or the first page when `m` is the number of entries). */
  predicate At(es: seq<Entry>, m: nat, wallet: string, after: Option<Cursor>)
    requires m <= |es|
  {
    if m == |es| then after.None? else after == Some(Cursor(wallet, es[m].version, es[m].id))
  }

  lemma RisingPrefix(es: seq<Entry>, m: nat)
    requires Rising(es) && m <= |es|
    ensures Rising(es[..m])
  {}

  lemma PageAt(ledger: seq<Entry>, wallet: string, es: seq<Entry>, m: nat, after: Option<Cursor>)
    requires Rising(EntriesOf(ledger, wallet)) && es <= EntriesOf(ledger, wallet) && m <= |es| && At(es, m, wallet, after)
    requires m == |es| ==> es == EntriesOf(ledger, wallet)
    ensures NewestFirst(Matching(ledger, wallet, after)) == Reversed(es[..m])
  {
    var all := EntriesOf(ledger, wallet);
    if after.None? {
      MatchingAll(ledger, wallet);
      assert es[..m] == all;
      RisingReverses(all);
    } else {
      MatchingBelow(ledger, wallet, after.value);
      BelowIsPrefix(all, m, |all|, after.value);
      assert all[..|all|] == all && all[..m] == es[..m];
      RisingPrefix(all, m);
      RisingReverses(es[..m]);
    }
  }

  // ----- Following the cursors -----

  datatype Walk = Walk(entries: seq<Entry>, next: Option<Cursor>)

  /** Asking for page after page, each with its own limit and each on the ledger of its moment. */
  function Follow(ledgers: seq<seq<Entry>>, limits: seq<nat>, wallet: string, after: Option<Cursor>): Walk
    requires |ledgers| == |limits| && |limits| > 0 && forall i :: 0 <= i < |limits| ==> limits[i] >= 1
  {
    var page := PageOf(ledgers[0], wallet, after, limits[0]);
    if page.next.None? || |limits| == 1 then Walk(page.entries, page.next)
    else
      var rest := Follow(ledgers[1..], limits[1..], wallet, page.next);
      Walk(page.entries + rest.entries, rest.next)
  }

  function Total(limits: seq<nat>): nat {
    if limits == [] then 0 else limits[0] + Total(limits[1..])
  }

  /** A ledger that only grows, on which the wallet's versions rise. */
  predicate Growing(ledgers: seq<seq<Entry>>, wallet: string, es: seq<Entry>) {
    forall i :: 0 <= i < |ledgers| ==> Rising(EntriesOf(ledgers[i], wallet)) && es <= EntriesOf(ledgers[i], wallet)
  }

  /** A page that is not the last leads on to the entry where it stopped. */
  lemma PageLeadsOn(ledger: seq<Entry>, wallet: string, es: seq<Entry>, m: nat, after: Option<Cursor>, limit: nat)
    requires m <= |es| && 1 <= limit && NewestFirst(Matching(ledger, wallet, after)) == Reversed(es[..m])
    ensures var page := PageOf(ledger, wallet, after, limit);
            && page.entries == Take(Reversed(es[..m]), limit)
            && (page.next.None? <==> m <= limit)
            && (limit < m ==> At(es, m - limit, wallet, page.next))
  {
    if limit < m {
      ReversedOf(es[..m], limit - 1);
    }
  }

  lemma {:induction false} FollowFrom(ledgers: seq<seq<Entry>>, limits: seq<nat>, wallet: string, es: seq<Entry>, m: nat, after: Option<Cursor>)
    requires |ledgers| == |limits| && |limits| > 0 && forall i :: 0 <= i < |limits| ==> limits[i] >= 1
    requires Growing(ledgers, wallet, es) && m <= |es| && At(es, m, wallet, after)
    requires m == |es| ==> es == EntriesOf(ledgers[0], wallet)
    ensures var walk := Follow(ledgers, limits, wallet, after);
            && walk.entries == Take(Reversed(es[..m]), Total(limits))
            && (walk.next.None? <==> m <= Total(limits))
  {
    hide PageOf, NewestFirst, Matching, At, Reversed;
    var limit := limits[0];
    PageAt(ledgers[0], wallet, es, m, after);
    PageLeadsOn(ledgers[0], wallet, es, m, after, limit);
    assert Total(limits) == limit + Total(limits[1..]);
    if limit < m && |limits| > 1 {
      FollowFrom(ledgers[1..], limits[1..], wallet, es, m - limit, PageOf(ledgers[0], wallet, after, limit).next);
      ReversedSplits(es[..m], limit);
      assert es[..m][..m - limit] == es[..m - limit];
      TakeSplits(Reversed(es[..m]), limit, Total(limits[1..]));
    }
  }

  lemma TakeSplits(s: seq<Entry>, m: nat, n: nat)
    requires m <= |s|
    ensures s[..m] + Take(s[m..], n) == Take(s, m + n)
  {}

  /** Following the cursors from a first page, with any limits and however many movements commit in
      between, returns the entries of the first query, newest first, none repeated and none
      skipped; and it ends exactly when the limits add up to their number. */
  lemma PagesAreComplete(ledgers: seq<seq<Entry>>, limits: seq<nat>, wallet: string)
    requires |ledgers| == |limits| && |limits| > 0 && forall i :: 0 <= i < |limits| ==> limits[i] >= 1
    requires Growing(ledgers, wallet, EntriesOf(ledgers[0], wallet))
    ensures var es, walk := EntriesOf(ledgers[0], wallet), Follow(ledgers, limits, wallet, None);
            && walk.entries == Take(Reversed(es), Total(limits))
            && (walk.next.None? <==> |es| <= Total(limits))
            && (forall i, j :: 0 <= i < j < |walk.entries| ==> Newer(walk.entries[i], walk.entries[j]))
  {
    var es := EntriesOf(ledgers[0], wallet);
    FollowFrom(ledgers, limits, wallet, es, |es|, None);
    assert es[..|es|] == es;
    var walk := Follow(ledgers, limits, wallet, None);
    forall i, j | 0 <= i < j < |walk.entries| ensures Newer(walk.entries[i], walk.entries[j]) {
      ReversedOf(es, i);
      ReversedOf(es, j);
    }
  }

  lemma {:induction false} EntriesGrow(ledger: seq<Entry>, ledger': seq<Entry>, wallet: string)
    requires ledger <= ledger'
    ensures EntriesOf(ledger, wallet) <= EntriesOf(ledger', wallet)
  {
    if |ledger| < |ledger'| {
      EntriesGrow(ledger, ledger'[..|ledger'| - 1], wallet);
    } else {
      assert ledger == ledger';
    }
  }

  lemma ChainRises(es: seq<Entry>, row: WalletRow)
    requires Chain(es, row)
    ensures Rising(es)
  {
    forall i, j | 0 <= i < j < |es| ensures es[i].version < es[j].version {
      ChainVersions(es, row, i, j);
    }
  }

  lemma {:induction false} MatchingIsStored(ledger: seq<Entry>, wallet: string, after: Option<Cursor>, e: Entry)
    requires e in Matching(ledger, wallet, after)
    ensures e in ledger
  {
    var n := |ledger| - 1;
    if e in Matching(ledger[..n], wallet, after) {
      MatchingIsStored(ledger[..n], wallet, after, e);
    }
  }

  /** A cursor that a page hands out is accepted by the next request, since entry ids are UUIDs and
      versions start at one. */
  lemma NextCursorIsAccepted(ledger: seq<Entry>, wallet: string, after: Option<Cursor>, limit: nat)
    requires limit >= 1 && forall i :: 0 <= i < |ledger| ==> ledger[i].version >= 1 && ValidUuid(ledger[i].id)
    ensures var next := PageOf(ledger, wallet, after, limit).next; next.Some? ==> CursorValid(next.value, wallet)
  {
    hide ValidUuid;
    var matching := Matching(ledger, wallet, after);
    var rows := NewestFirst(matching);
    if |rows| > limit {
      NewestFirstSorts(matching);
      assert rows[limit - 1] in multiset(rows);
      MatchingIsStored(ledger, wallet, after, rows[limit - 1]);
    }
  }
}
