/** The page loop request_schema_pages of scripts/wp1_target.py against an arbitrary server, and
    what makes a list of pages a complete listing. */
module SchemaPages {
  import opened Wrappers
  import opened Json

  const MAX_REQUESTS := 1000

  /* ---------------- reading a page ---------------- */

  /** dict.get on a value that may be no dict. */
  function Field(j: Json, key: string): Json { if j.Obj? then Get(j.fields, key) else Null }

  function ItemsOf(page: Json): seq<Json> {
    var items := Field(page, "items");
    if items.Arr? then items.items else []
  }

  function TotalOf(page: Json): Json { Field(Field(page, "page"), "total_count") }

  function CursorOf(page: Json): Json { Field(Field(page, "page"), "next_cursor") }

  function RequestCursor(page: Json): Json { Field(page, "request_cursor") }

  /** More pages are announced. */
  predicate More(page: Json) { Field(Field(page, "page"), "has_next_page") == Bool(true) }

  /** The white space that str.strip removes. */
  predicate IsSpace(c: char) {
    var n := c as int;
    || 9 <= n <= 13 || 28 <= n <= 32 || n == 0x85 || n == 0xA0 || n == 0x1680 || 0x2000 <= n <= 0x200A
    || n == 0x2028 || n == 0x2029 || n == 0x202F || n == 0x205F || n == 0x3000
  }

  predicate NotBlank(j: Json) { j.Str? && exists i :: 0 <= i < |j.s| && !IsSpace(j.s[i]) }

  /** Everything both programs ask of the shape of one page. */
  predicate Shaped(page: Json) {
    && Field(page, "items").Arr? && Field(page, "page").Obj?
    && TotalOf(page).Num? && TotalOf(page).n >= 0
    && Field(Field(page, "page"), "has_next_page").Bool?
    && (More(page) ==> NotBlank(CursorOf(page)))
  }

  /** The items of the first pages, in order. */
  function ItemsUpTo(pages: seq<Json>, n: nat): seq<Json>
    requires n <= |pages|
  {
    if n == 0 then [] else ItemsUpTo(pages, n - 1) + ItemsOf(pages[n - 1])
  }

  /** What both programs ask of page i in view of the pages before it. */
  predicate Linked(pages: seq<Json>, i: nat)
    requires i < |pages|
  {
    && Shaped(pages[i]) && TotalOf(pages[i]) == TotalOf(pages[0])
    && (More(pages[i]) ==>
          && |ItemsUpTo(pages, i + 1)| < TotalOf(pages[i]).n
          && (forall j :: 0 <= j < i && More(pages[j]) ==> CursorOf(pages[j]) != CursorOf(pages[i]))
          && RequestCursor(pages[i]) != CursorOf(pages[i]) && ItemsOf(pages[i]) != [])
  }

  predicate LastEnds(pages: seq<Json>, i: nat)
    requires i < |pages|
  {
    More(pages[i]) <==> i < |pages| - 1
  }

  /** A complete listing: every page is linked, only the last announces no more, and the items
      add up to the announced total. */
  predicate Complete(pages: seq<Json>) {
    && pages != [] && (forall i :: 0 <= i < |pages| ==> Linked(pages, i) && LastEnds(pages, i))
    && TotalOf(pages[0]) == Num(|ItemsUpTo(pages, |pages|)|)
  }

  lemma {:induction false} SameItems(pages: seq<Json>, more: seq<Json>, n: nat)
    requires n <= |pages| && n <= |more| && pages[..n] == more[..n]
    ensures ItemsUpTo(pages, n) == ItemsUpTo(more, n)
  {
    if n > 0 {
      assert pages[..n - 1] == pages[..n][..n - 1] && more[..n - 1] == more[..n][..n - 1];
      SameItems(pages, more, n - 1);
      assert pages[n - 1] == pages[..n][n - 1] && more[n - 1] == more[..n][n - 1];
    }
  }

  lemma {:induction false} LinkedPrefix(pages: seq<Json>, more: seq<Json>, i: nat)
    requires i < |pages| && i < |more| && pages[..i + 1] == more[..i + 1]
    ensures Linked(pages, i) <==> Linked(more, i)
  {
    SameItems(pages, more, i + 1);
    assert forall j :: 0 <= j <= i ==> pages[j] == pages[..i + 1][j] && more[j] == more[..i + 1][j];
  }

  /* ---------------- the producer ---------------- */

  /** A request that raises counts as a status other than 200. */
  datatype Answer = Answer(status: int, page: Json)

  /** An arbitrary server: its answer to the n-th request of the run. */
  type Server = nat -> Answer

  function PageJson(raw: Json, cursor: Json): Json {
    Obj(map["items" := Field(raw, "items"), "page" := Field(raw, "page"), "request_cursor" := cursor])
  }

  /** The cursor sent with the n-th request. */
  function Cursor(server: Server, n: nat): Json {
    if n == 0 then Null else CursorOf(server(n - 1).page)
  }

  /** The first n answers as the producer files them. */
  function Filed(server: Server, n: nat): (r: seq<Json>)
    ensures |r| == n
    ensures forall k :: 0 <= k < n ==> r[k] == PageJson(server(k).page, Cursor(server, k))
  {
    seq(n, k requires 0 <= k < n => PageJson(server(k).page, Cursor(server, k)))
  }

  const EMPTY_PAGE: Json := Obj(map["items" := Arr([]),
    "page" := Obj(map["total_count" := Num(0), "has_next_page" := Bool(false), "next_cursor" := Null]),
    "request_cursor" := Null])

  /** A brand-new control plane answers the first request with a literal empty object. */
  predicate BrandNew(server: Server) { server(0) == Answer(200, Obj(map[])) }

  /** The first n answers arrived and make up a complete listing. */
  predicate Lists(server: Server, n: nat) {
    && 1 <= n <= MAX_REQUESTS && (forall k :: 0 <= k < n ==> server(k).status == 200)
    && Complete(Filed(server, n))
  }

  lemma {:induction false} PageReads(raw: Json, cursor: Json)
    ensures var p := PageJson(raw, cursor);
      && Field(p, "items") == Field(raw, "items") && Field(p, "page") == Field(raw, "page")
      && RequestCursor(p) == cursor
      && ItemsOf(p) == ItemsOf(raw) && TotalOf(p) == TotalOf(raw) && CursorOf(p) == CursorOf(raw)
      && (More(p) <==> More(raw)) && (Shaped(p) <==> Shaped(raw))
  {
  }

  /** The k-th answer arrived, is linked, and announced more. */
  predicate Kept(server: Server, k: nat) {
    server(k).status == 200 && Linked(Filed(server, k + 1), k) && More(server(k).page)
  }

  predicate Going(server: Server, k: nat) {
    k <= MAX_REQUESTS && forall i :: 0 <= i < k ==> Kept(server, i)
  }

  /** The k-th answer ends a complete listing. */
  predicate Ends(server: Server, k: nat) {
    && server(k).status == 200 && Linked(Filed(server, k + 1), k) && !More(server(k).page)
    && TotalOf(Filed(server, k + 1)[0]) == Num(|ItemsUpTo(Filed(server, k + 1), k + 1)|)
  }

  /** Whether an answer is linked does not depend on the answers after it. */
  lemma {:induction false} LinkIsStable(server: Server, i: nat, n: nat)
    requires i < n
    ensures Linked(Filed(server, n), i) <==> Linked(Filed(server, i + 1), i)
    ensures More(Filed(server, n)[i]) <==> More(server(i).page)
  {
    hide Linked, ItemsUpTo;
    assert Filed(server, n)[..i + 1] == Filed(server, i + 1)[..i + 1];
    LinkedPrefix(Filed(server, n), Filed(server, i + 1), i);
    PageReads(server(i).page, Cursor(server, i));
  }

  /** A listing of n answers is n - 1 kept answers and one that ends it. */
  lemma {:induction false} ListsExactly(server: Server, n: nat)
    requires 1 <= n <= MAX_REQUESTS
    ensures Lists(server, n) <==> Going(server, n - 1) && Ends(server, n - 1)
  {
    hide Linked, ItemsUpTo, More, Filed, PageJson;
    forall i | 0 <= i < n
      ensures Linked(Filed(server, n), i) <==> Linked(Filed(server, i + 1), i)
      ensures LastEnds(Filed(server, n), i) <==> (More(server(i).page) <==> i < n - 1)
    {
      LinkIsStable(server, i, n);
    }
    if Lists(server, n) {
      forall i | 0 <= i < n
        ensures server(i).status == 200 && Linked(Filed(server, n), i) && LastEnds(Filed(server, n), i)
      {
      }
    }
    if Going(server, n - 1) && Ends(server, n - 1) {
      forall i | 0 <= i < n
        ensures server(i).status == 200 && Linked(Filed(server, n), i) && LastEnds(Filed(server, n), i)
      {
        assert i < n - 1 ==> Kept(server, i);
      }
    }
  }

  lemma {:induction false} EndsNotKept(server: Server, k: nat)
    ensures !(Ends(server, k) && Kept(server, k))
  {
  }

  lemma {:induction false} ListsRange(server: Server, n: nat)
    requires Lists(server, n)
    ensures 1 <= n <= MAX_REQUESTS
  {
    hide Complete;
  }

  /** A run that has gone k answers ends a listing with the next one or with a later one, if ever. */
  lemma {:induction false} ListedHas(server: Server, k: nat, n: nat)
    requires Going(server, k) && Lists(server, n)
    ensures k < MAX_REQUESTS && (Ends(server, k) || Kept(server, k))
  {
    hide Linked, Filed, ItemsUpTo, More, Lists, Kept, Ends, Cursor;
    ListsRange(server, n);
    ListsExactly(server, n);
    EndsNotKept(server, n - 1);
    assert Going(server, n - 1) && Ends(server, n - 1);
  }

  lemma {:induction false} Stuck(server: Server, k: nat)
    requires Going(server, k) && !Ends(server, k) && !Kept(server, k)
    ensures forall n :: !Lists(server, n)
  {
    hide Lists, Kept, Ends;
    forall n ensures !Lists(server, n) {
      if Lists(server, n) {
        ListedHas(server, k, n);
      }
    }
  }

  lemma {:induction false} TooLong(server: Server)
    requires Going(server, MAX_REQUESTS)
    ensures forall n :: !Lists(server, n)
  {
    hide Lists, Kept, Ends;
    forall n ensures !Lists(server, n) {
      if Lists(server, n) {
        ListedHas(server, MAX_REQUESTS, n);
      }
    }
  }

  /** What the loop has established about its variables after k answers. */
  ghost predicate Tracks(server: Server, k: nat, pages: seq<Json>, cursor: Json, seen: set<Json>, count: Option<int>,
                         observed: int) {
    && Going(server, k) && pages == Filed(server, k) && cursor == Cursor(server, k) && observed == |ItemsUpTo(pages, k)|
    && (k == 0 ==> count == None)
    && (k > 0 ==> !BrandNew(server) && TotalOf(pages[0]).Num? && count == Some(TotalOf(pages[0]).n))
    && SeenIn(pages, seen)
  }

  /** The cursors the pages announced. */
  ghost predicate SeenIn(pages: seq<Json>, seen: set<Json>) {
    forall c :: c in seen <==> exists j :: 0 <= j < |pages| && CursorOf(pages[j]) == c
  }

  /** The checks of one turn, told by what the loop tracks. */
  lemma {:induction false} TurnIsLinked(server: Server, k: nat, pages: seq<Json>, cursor: Json, seen: set<Json>,
                                        count: Option<int>, observed: int)
    requires Tracks(server, k, pages, cursor, seen, count, observed)
    ensures Linked(Filed(server, k + 1), k) <==> TurnOk(server(k).page, cursor, seen, count, observed)
    ensures |ItemsUpTo(Filed(server, k + 1), k + 1)| == observed + |ItemsOf(server(k).page)|
    ensures Filed(server, k + 1) == pages + [PageJson(server(k).page, cursor)]
    ensures k > 0 ==> TotalOf(Filed(server, k + 1)[0]) == Num(count.value)
    ensures k == 0 ==> TotalOf(Filed(server, k + 1)[0]) == TotalOf(server(k).page)
  {
    var page, filed := server(k).page, Filed(server, k + 1);
    FiledNext(server, k);
    assert Going(server, k) && pages == Filed(server, k) && cursor == Cursor(server, k) && SeenIn(pages, seen);
    assert observed == |ItemsUpTo(pages, k)| && (k == 0 ==> count == None) && (k > 0 ==> count.Some?);
    assert k > 0 ==> TotalOf(pages[0]) == Num(count.value);
    hide *;
    FiledMore(server, k);
    PageReads(page, cursor);
    CursorSeen(pages, filed, k, page, seen);
    LinkedMeansTurn(filed, k, page, cursor, seen, count, observed);
  }

  lemma {:induction false} FiledNext(server: Server, k: nat)
    ensures Filed(server, k + 1) == Filed(server, k) + [PageJson(server(k).page, Cursor(server, k))]
    ensures ItemsUpTo(Filed(server, k + 1), k + 1) == ItemsUpTo(Filed(server, k), k) + ItemsOf(server(k).page)
  {
    hide *;
    var pages, filed := Filed(server, k), Filed(server, k + 1);
    assert forall i :: 0 <= i < k ==> filed[i] == pages[i];
    assert filed == pages + [PageJson(server(k).page, Cursor(server, k))];
    assert filed[..k] == pages[..k];
    SameItems(pages, filed, k);
    PageReads(server(k).page, Cursor(server, k));
    LastItems(filed, k);
  }

  lemma {:induction false} LastItems(pages: seq<Json>, n: nat)
    requires n < |pages|
    ensures ItemsUpTo(pages, n + 1) == ItemsUpTo(pages, n) + ItemsOf(pages[n])
  {
    hide ItemsOf;
  }

  lemma {:induction false} LinkedMeansTurn(filed: seq<Json>, k: nat, page: Json, cursor: Json, seen: set<Json>,
                                           count: Option<int>, observed: int)
    requires k < |filed| && |ItemsUpTo(filed, k + 1)| == observed + |ItemsOf(page)|
    requires ItemsOf(filed[k]) == ItemsOf(page) && TotalOf(filed[k]) == TotalOf(page)
    requires CursorOf(filed[k]) == CursorOf(page)
    requires RequestCursor(filed[k]) == cursor && (More(filed[k]) <==> More(page))
    requires (Shaped(filed[k]) <==> Shaped(page))
    requires if k == 0 then count == None else count.Some? && TotalOf(filed[0]) == Num(count.value)
    requires CursorOf(page) !in seen <==>
      forall j :: 0 <= j < k && More(filed[j]) ==> CursorOf(filed[j]) != CursorOf(page)
    ensures Linked(filed, k) <==> TurnOk(page, cursor, seen, count, observed)
  {
    hide Shaped, More, TotalOf, CursorOf, ItemsOf, RequestCursor, ItemsUpTo;
    ShapedTotal(page);
  }

  lemma {:induction false} CursorSeen(pages: seq<Json>, filed: seq<Json>, k: nat, page: Json, seen: set<Json>)
    requires k < |filed| && |pages| == k && forall j :: 0 <= j < k ==> filed[j] == pages[j] && More(filed[j])
    requires SeenIn(pages, seen)
    ensures (forall j :: 0 <= j < k && More(filed[j]) ==> CursorOf(filed[j]) != CursorOf(page))
       <==> CursorOf(page) !in seen
  {
    hide CursorOf, More;
  }

  lemma {:induction false} FiledMore(server: Server, k: nat)
    requires Going(server, k)
    ensures forall j :: 0 <= j < k ==> Filed(server, k + 1)[j] == Filed(server, k)[j] && More(Filed(server, k + 1)[j])
  {
    hide Kept, More, PageJson;
    forall j | 0 <= j < k ensures Filed(server, k + 1)[j] == Filed(server, k)[j] && More(Filed(server, k + 1)[j]) {
      assert Kept(server, j);
      KeptMore(server, j);
    }
  }

  lemma {:induction false} KeptMore(server: Server, j: nat)
    requires Kept(server, j)
    ensures More(PageJson(server(j).page, Cursor(server, j)))
  {
    hide Linked;
    PageReads(server(j).page, Cursor(server, j));
  }

  lemma {:induction false} ShapedTotal(page: Json)
    ensures Shaped(page) ==> TotalOf(page).Num?
  {
  }

  predicate TurnOk(page: Json, cursor: Json, seen: set<Json>, count: Option<int>, observed: int) {
    && Shaped(page) && (count.Some? ==> TotalOf(page).n == count.value)
    && (More(page) ==>
          && observed + |ItemsOf(page)| < TotalOf(page).n && CursorOf(page) !in seen
          && CursorOf(page) != cursor && ItemsOf(page) != [])
  }

  /** What one turn of the loop decides, told by the loop's variables. */
  lemma {:induction false} TurnVerdict(server: Server, k: nat, pages: seq<Json>, cursor: Json, seen: set<Json>,
                                       count: Option<int>, observed: int)
    requires Tracks(server, k, pages, cursor, seen, count, observed)
    ensures var page := server(k).page;
      && (Kept(server, k) <==> (server(k).status == 200 && TurnOk(page, cursor, seen, count, observed) && More(page)))
      && (Ends(server, k) <==> (server(k).status == 200 && TurnOk(page, cursor, seen, count, observed) && !More(page)
                                && TotalOf(page) == Num(observed + |ItemsOf(page)|)))
    ensures Filed(server, k + 1) == pages + [PageJson(server(k).page, cursor)]
    ensures (pages == [] <==> k == 0) && (k > 0 ==> !BrandNew(server)) && Going(server, k)
  {
    TurnIsLinked(server, k, pages, cursor, seen, count, observed);
    hide Linked, Filed, ItemsUpTo, Shaped, Lists, More, TotalOf, CursorOf, ItemsOf, Field, Cursor, BrandNew;
    ShapedTotal(server(k).page);
  }

  /** request_schema_pages: for any server at most a thousand requests are made, and pages are
      returned exactly when the answers make up a complete listing (or the server is brand new). */
  method RequestSchemaPages(server: Server) returns (r: Result<seq<Json>>, requests: nat)
    ensures requests <= MAX_REQUESTS
    ensures BrandNew(server) ==> r == Ok([EMPTY_PAGE]) && requests == 1
    ensures !BrandNew(server) ==> (r.Ok? <==> exists n :: Lists(server, n))
    ensures !BrandNew(server) && r.Ok? ==> r.value == Filed(server, requests) && Lists(server, requests)
  {
    hide Linked, Filed, ItemsUpTo, Shaped, Lists, More, TotalOf, CursorOf, ItemsOf, Field, Kept, Ends, Tracks, Cursor;
    requests := 0;
    var cursor := Null;
    var pages: seq<Json>, seenCursors: set<Json>, count: Option<int>, observed: int := [], {}, None, 0;
    Start(server);
    while requests < MAX_REQUESTS
      invariant requests <= MAX_REQUESTS
      invariant Going(server, requests) && (requests > 0 ==> !BrandNew(server))
      invariant Tracks(server, requests, pages, cursor, seenCursors, count, observed)
    {
      var answer := server(requests);
      ghost var k := requests;
      TurnVerdict(server, k, pages, cursor, seenCursors, count, observed);
      if Kept(server, k) && !BrandNew(server) {
        TurnTracks(server, k, pages, cursor, seenCursors, count, observed);
      }
      requests := requests + 1;
      if answer.status != 200 {
        Stuck(server, k);
        return Err, requests;
      }
      if pages == [] && answer.page == Obj(map[]) {
        return Ok([EMPTY_PAGE]), requests;
      }
      ShapedTotal(answer.page);
      if !Shaped(answer.page) || (count.Some? && TotalOf(answer.page).n != count.value) {
        Stuck(server, k);
        return Err, requests;
      }
      var total := TotalOf(answer.page).n;
      count := Some(total);
      pages := pages + [PageJson(answer.page, cursor)];
      observed := observed + |ItemsOf(answer.page)|;
      if observed > total {
        Stuck(server, k);
        return Err, requests;
      }
      if !More(answer.page) {
        if observed != total {
          Stuck(server, k);
          return Err, requests;
        }
        ListsExactly(server, requests);
        return Ok(pages), requests;
      }
      var next := CursorOf(answer.page);
      if observed >= total || ItemsOf(answer.page) == [] || next in seenCursors || next == cursor {
        Stuck(server, k);
        return Err, requests;
      }
      seenCursors := seenCursors + {next};
      cursor := next;
    }
    TooLong(server);
    r := Err;
  }

  /** A kept answer leaves the loop's variables in step. */
  lemma {:induction false} TurnTracks(server: Server, k: nat, pages: seq<Json>, cursor: Json, seen: set<Json>,
                                      count: Option<int>, observed: int)
    requires Tracks(server, k, pages, cursor, seen, count, observed) && k < MAX_REQUESTS && Kept(server, k)
    requires !BrandNew(server)
    ensures TotalOf(server(k).page).Num? && Going(server, k + 1)
    ensures Tracks(server, k + 1, Filed(server, k + 1), CursorOf(server(k).page), seen + {CursorOf(server(k).page)},
                   Some(TotalOf(server(k).page).n), observed + |ItemsOf(server(k).page)|)
  {
    GoesOn(server, k);
    hide Linked, TurnOk, SeenIn, Kept, Shaped, More, PageJson;
    hide TotalOf, CursorOf, ItemsOf, RequestCursor, ItemsUpTo, BrandNew;
    var page, filed := server(k).page, Filed(server, k + 1);
    KeptTotal(server, k);
    TurnIsLinked(server, k, pages, cursor, seen, count, observed);
    ShapedTotal(page);
    PageReads(page, cursor);
    assert forall j :: 0 <= j < k ==> filed[j] == pages[j];
    assert filed[k] == PageJson(page, cursor);
    SeenGrows(pages, filed, k, seen);
  }

  lemma {:induction false} KeptTotal(server: Server, k: nat)
    requires Kept(server, k)
    ensures TotalOf(Filed(server, k + 1)[k]) == TotalOf(Filed(server, k + 1)[0]) && TotalOf(server(k).page).Num?
  {
    hide Shaped, PageJson, TotalOf, CursorOf, ItemsOf, RequestCursor, ItemsUpTo;
    PageReads(server(k).page, Cursor(server, k));
    ShapedTotal(server(k).page);
  }

  lemma {:induction false} GoesOn(server: Server, k: nat)
    requires Going(server, k) && Kept(server, k) && k < MAX_REQUESTS
    ensures Going(server, k + 1)
  {
    hide Kept;
  }

  lemma {:induction false} SeenGrows(pages: seq<Json>, filed: seq<Json>, k: nat, seen: set<Json>)
    requires |pages| == k && |filed| == k + 1 && forall j :: 0 <= j < k ==> filed[j] == pages[j]
    requires SeenIn(pages, seen)
    ensures SeenIn(filed, seen + {CursorOf(filed[k])})
  {
    hide CursorOf;
    forall c ensures c in seen + {CursorOf(filed[k])} <==> exists j :: 0 <= j < k + 1 && CursorOf(filed[j]) == c {
      if c in seen {
        var j :| 0 <= j < k && CursorOf(pages[j]) == c;
        assert CursorOf(filed[j]) == c;
      }
    }
  }

  lemma {:induction false} Start(server: Server)
    ensures Tracks(server, 0, [], Null, {}, None, 0)
  {
  }
}
