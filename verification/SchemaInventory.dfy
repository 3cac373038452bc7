/** collect_schema_pages, normalize_schema and compare_schema_hashes of scripts/wp1.py, and
    check_schemas of scripts/wp1_target.py, which feeds one program's pages to the other. */
module SchemaInventory {
  import opened Wrappers
  import opened Json
  import opened SchemaPages

  predicate SchemaItem(j: Json) {
    j.Obj? && IsText(Get(j.fields, "name")) && IsText(Get(j.fields, "lua_schema"))
  }

  function ItemName(j: Json): string { if SchemaItem(j) then Get(j.fields, "name").s else "" }

  function ItemSource(j: Json): string { if SchemaItem(j) then Get(j.fields, "lua_schema").s else "" }

  predicate GoodItems(items: seq<Json>) {
    && (forall i :: 0 <= i < |items| ==> SchemaItem(items[i]))
    && (forall i, j :: 0 <= i < j < |items| ==> ItemName(items[i]) != ItemName(items[j]))
  }

  /** Each name with its source. */
  function Found(items: seq<Json>): map<string, string> {
    if items == [] then map[]
    else Found(items[..|items| - 1])[ItemName(items[|items| - 1]) := ItemSource(items[|items| - 1])]
  }

  function AllItems(pages: seq<Json>): seq<Json> { ItemsUpTo(pages, |pages|) }

  /** The pages the checker accepts: a complete listing of well-formed items with distinct names
      that cover the expected ones. */
  predicate Acceptable(pages: seq<Json>, expected: set<string>) {
    Complete(pages) && GoodItems(AllItems(pages)) && expected <= Found(AllItems(pages)).Keys
  }

  /** The inventory restricted to the expected names. */
  function Inventory(pages: seq<Json>, expected: set<string>): map<string, string>
    requires expected <= Found(AllItems(pages)).Keys
  {
    map name | name in expected :: Found(AllItems(pages))[name]
  }

  /* ---------------- the items of a prefix ---------------- */

  lemma {:induction false} ItemsGrow(pages: seq<Json>, n: nat, m: nat)
    requires n <= m <= |pages|
    ensures ItemsUpTo(pages, n) <= ItemsUpTo(pages, m)
  {
    if n < m {
      ItemsGrow(pages, n, m - 1);
    }
  }

  lemma {:induction false} GoodPrefix(items: seq<Json>, all: seq<Json>)
    requires items <= all && GoodItems(all)
    ensures GoodItems(items)
  {
    assert forall i :: 0 <= i < |items| ==> items[i] == all[i];
  }

  lemma {:induction false} FoundNames(items: seq<Json>, name: string)
    ensures name in Found(items) <==> exists i :: 0 <= i < |items| && ItemName(items[i]) == name
  {
    hide ItemName, ItemSource;
    if items != [] {
      var front := items[..|items| - 1];
      FoundNames(front, name);
      if exists i :: 0 <= i < |front| && ItemName(front[i]) == name {
        var i :| 0 <= i < |front| && ItemName(front[i]) == name;
        assert ItemName(items[i]) == name;
      }
    }
  }

  lemma {:induction false} FoundCount(items: seq<Json>)
    requires GoodItems(items)
    ensures |Found(items)| == |items|
  {
    hide SchemaItem, ItemName, ItemSource;
    if items != [] {
      var front, last := items[..|items| - 1], items[|items| - 1];
      GoodPrefix(front, items);
      FoundCount(front);
      FoundNames(front, ItemName(last));
      assert forall i :: 0 <= i < |front| ==> ItemName(items[i]) != ItemName(last);
    }
  }

  /** One more item is good exactly when it is well formed and its name is new. */
  lemma {:induction false} OneMoreGood(items: seq<Json>, item: Json)
    requires GoodItems(items)
    ensures GoodItems(items + [item]) <==> (SchemaItem(item) && ItemName(item) !in Found(items))
    ensures Found(items + [item]) == Found(items)[ItemName(item) := ItemSource(item)]
  {
    hide SchemaItem, ItemName, ItemSource;
    var all := items + [item];
    assert all[..|items|] == items && all[|items|] == item;
    FoundNames(items, ItemName(item));
    if ItemName(item) in Found(items) {
      var i :| 0 <= i < |items| && ItemName(items[i]) == ItemName(item);
      assert ItemName(all[i]) == ItemName(all[|items|]);
    } else if SchemaItem(item) {
      forall i, j | 0 <= i < j < |all| ensures ItemName(all[i]) != ItemName(all[j]) {
        assert ItemName(all[i]) == ItemName(items[i]);
      }
      assert forall i :: 0 <= i < |items| ==> SchemaItem(all[i]);
    }
  }

  /* ---------------- the checker as written ---------------- */

  /** The inner loop: file the items of one page. */
  method FileItems(ghost before: seq<Json>, items: seq<Json>, found: map<string, string>)
    returns (ok: bool, after: map<string, string>)
    requires GoodItems(before) && found == Found(before)
    ensures ok <==> GoodItems(before + items)
    ensures ok ==> after == Found(before + items)
  {
    hide GoodItems, Found;
    after := found;
    assert before + [] == before;
    for m := 0 to |items|
      invariant GoodItems(before + items[..m]) && after == Found(before + items[..m])
    {
      var item := items[m];
      ghost var done := before + items[..m];
      OneMoreGood(done, item);
      assert done + [item] == before + items[..m + 1];
      if !SchemaItem(item) || ItemName(item) in after {
        assert before + items[..m + 1] <= before + items;
        if GoodItems(before + items) {
          GoodPrefix(before + items[..m + 1], before + items);
        }
        return false, after;
      }
      after := after[ItemName(item) := ItemSource(item)];
    }
    assert items[..|items|] == items;
    ok := true;
  }

  /** The cursors announced by the first pages. */
  ghost predicate Announced(pages: seq<Json>, n: nat, seen: set<Json>)
    requires n <= |pages|
  {
    forall c :: c in seen <==> exists j :: 0 <= j < n && More(pages[j]) && CursorOf(pages[j]) == c
  }

  /** The checks on one page besides its items. */
  predicate PageFits(page: Json, last: bool, total: int, count: int, seen: set<Json>) {
    && Shaped(page) && TotalOf(page) == Num(total) && (More(page) <==> !last)
    && (More(page) ==>
          && count < total && CursorOf(page) !in seen && RequestCursor(page) != CursorOf(page) && ItemsOf(page) != [])
  }

  lemma {:induction false} PageFitsExactly(pages: seq<Json>, i: nat, total: int, seen: set<Json>)
    requires i < |pages| && Announced(pages, i, seen) && TotalOf(pages[0]) == Num(total)
    ensures Linked(pages, i) && LastEnds(pages, i)
       <==> PageFits(pages[i], i == |pages| - 1, total, |ItemsUpTo(pages, i + 1)|, seen)
  {
    hide Shaped, TotalOf, CursorOf, RequestCursor, ItemsOf, ItemsUpTo, More;
  }

  /** collect_schema_pages */
  method CollectSchemaPages(pages: seq<Json>, expected: set<string>) returns (r: Result<map<string, string>>)
    ensures r == if Acceptable(pages, expected) then Ok(Inventory(pages, expected)) else Err
  {
    hide Shaped, TotalOf, CursorOf, RequestCursor, ItemsOf, GoodItems, Found, Linked, More, Field;
    var found: map<string, string>, expectedTotal: Option<int>, seenCursors: set<Json> := map[], None, {};
    NothingFound(pages);
    for i := 0 to |pages|
      invariant forall k :: 0 <= k < i ==> Linked(pages, k) && LastEnds(pages, k)
      invariant GoodItems(ItemsUpTo(pages, i)) && found == Found(ItemsUpTo(pages, i))
      invariant Announced(pages, i, seenCursors)
      invariant if i == 0 then expectedTotal == None
                else expectedTotal.Some? && TotalOf(pages[0]) == Num(expectedTotal.value)
    {
      var page := pages[i];
      ShapedTotals(pages);
      LinkedNeeds(pages, i);
      if !Shaped(page) || (expectedTotal.Some? && TotalOf(page).n != expectedTotal.value) {
        return Err;
      }
      var total := TotalOf(page).n;
      expectedTotal := Some(total);
      ghost var before := ItemsUpTo(pages, i);
      assert before + ItemsOf(page) == ItemsUpTo(pages, i + 1);
      ItemsGrow(pages, i + 1, |pages|);
      var ok, after := FileItems(before, ItemsOf(page), found);
      if !ok {
        BadPrefix(pages, i + 1);
        return Err;
      }
      found := after;
      FoundCount(ItemsUpTo(pages, i + 1));
      PageFitsExactly(pages, i, total, seenCursors);
      var count, last := |found|, i == |pages| - 1;
      if More(page) && last {
        return Err;
      }
      if !More(page) && !last {
        return Err;
      }
      if More(page) {
        if || count >= total || CursorOf(page) in seenCursors
           || RequestCursor(page) == CursorOf(page) || ItemsOf(page) == [] {
          return Err;
        }
        seenCursors := seenCursors + {CursorOf(page)};
      }
    }
    if expectedTotal != Some(|found|) {
      CountMatters(pages);
      return Err;
    }
    FoundCount(AllItems(pages));
    if !(expected <= found.Keys) {
      return Err;
    }
    return Ok(map name | name in expected :: found[name]);
  }

  lemma {:induction false} NothingFound(pages: seq<Json>)
    ensures GoodItems(ItemsUpTo(pages, 0)) && Found(ItemsUpTo(pages, 0)) == map[] && Announced(pages, 0, {})
  {
  }

  lemma {:induction false} ShapedTotals(pages: seq<Json>)
    ensures forall i :: 0 <= i < |pages| && Shaped(pages[i]) ==> TotalOf(pages[i]).Num?
  {
  }

  lemma {:induction false} LinkedNeeds(pages: seq<Json>, i: nat)
    requires i < |pages|
    ensures Linked(pages, i) ==> Shaped(pages[i]) && TotalOf(pages[i]) == TotalOf(pages[0])
  {
  }

  lemma {:induction false} BadPrefix(pages: seq<Json>, n: nat)
    requires n <= |pages| && !GoodItems(ItemsUpTo(pages, n))
    ensures !GoodItems(AllItems(pages))
  {
    ItemsGrow(pages, n, |pages|);
    if GoodItems(AllItems(pages)) {
      GoodPrefix(ItemsUpTo(pages, n), AllItems(pages));
    }
  }

  lemma {:induction false} CountMatters(pages: seq<Json>)
    requires GoodItems(AllItems(pages))
    ensures Complete(pages) ==> TotalOf(pages[0]) == Num(|Found(AllItems(pages))|)
  {
    FoundCount(AllItems(pages));
  }

  /* ---------------- the two programs together ---------------- */

  /** Producer and checker agree: the checker accepts the pages of any listing the producer
      accepted exactly when the items the server sent are well formed, their names are distinct
      and they cover the expected ones; it then returns their sources. Nothing about paging is
      ever refused a second time. */
  lemma {:induction false} ListedPagesAreAccepted(server: Server, n: nat, expected: set<string>)
    requires Lists(server, n)
    ensures Acceptable(Filed(server, n), expected)
       <==> GoodItems(Answered(server, n)) && expected <= Found(Answered(server, n)).Keys
    ensures Acceptable(Filed(server, n), expected) ==>
      Inventory(Filed(server, n), expected) == map name | name in expected :: Found(Answered(server, n))[name]
  {
    ListedItems(server, n, n);
    hide GoodItems, Found, Complete, Answered;
  }

  /** The items of a listing are those of the server's answers, in their order. */
  lemma {:induction false} ListedItems(server: Server, n: nat, k: nat)
    requires k <= n
    ensures ItemsUpTo(Filed(server, n), k) == Answered(server, k)
  {
    hide Filed, Cursor, ItemsOf, PageJson, TotalOf, CursorOf, Shaped, More;
    if k > 0 {
      hide *;
      ListedItems(server, n, k - 1);
      PageReads(server(k - 1).page, Cursor(server, k - 1));
      LastItems(Filed(server, n), k - 1);
      OneMoreAnswer(server, k);
    }
  }

  lemma {:induction false} OneMoreAnswer(server: Server, k: nat)
    requires 0 < k
    ensures Answered(server, k) == Answered(server, k - 1) + ItemsOf(server(k - 1).page)
  {
    hide ItemsOf;
  }

  function Answered(server: Server, k: nat): seq<Json> {
    if k == 0 then [] else Answered(server, k - 1) + ItemsOf(server(k - 1).page)
  }

  /** The page made up for a brand-new control plane is accepted when nothing is expected. */
  lemma {:induction false} EmptyPageAccepted(expected: set<string>)
    ensures Acceptable([EMPTY_PAGE], expected) <==> expected == {}
  {
    assert ItemsOf(EMPTY_PAGE) == [] && TotalOf(EMPTY_PAGE) == Num(0) && !More(EMPTY_PAGE) && Shaped(EMPTY_PAGE);
    assert ItemsUpTo([EMPTY_PAGE], 0) == [] && ItemsUpTo([EMPTY_PAGE], 1) == [];
    assert Linked([EMPTY_PAGE], 0) && LastEnds([EMPTY_PAGE], 0);
  }

  /* ---------------- schema text ---------------- */

  /** str.replace of CR LF by LF */
  function UnixLines(s: string): string {
    if |s| < 2 then s
    else if s[0] == '\r' && s[1] == '\n' then ['\n'] + UnixLines(s[2..])
    else [s[0]] + UnixLines(s[1..])
  }

  /** normalize_schema on a text that is not empty */
  function Normalize(s: string): string {
    var text := UnixLines(s);
    if text != [] && text[|text| - 1] == '\n' then text[..|text| - 1] else text
  }

  /** The same text with CR LF line ends. */
  function DosLines(s: string): string {
    if s == [] then [] else (if s[0] == '\n' then ['\r', '\n'] else [s[0]]) + DosLines(s[1..])
  }

  lemma {:induction false} UnixOfPlain(s: string)
    requires '\r' !in s
    ensures UnixLines(s) == s
  {
    if |s| >= 2 {
      UnixOfPlain(s[1..]);
      assert s == [s[0]] + s[1..];
    }
  }

  lemma {:induction false} UnixOfDos(s: string)
    requires '\r' !in s
    ensures UnixLines(DosLines(s)) == s
  {
    if s != [] {
      var rest := DosLines(s[1..]);
      UnixOfDos(s[1..]);
      assert s == [s[0]] + s[1..];
      if s[0] == '\n' {
        assert DosLines(s)[2..] == rest;
      } else {
        assert DosLines(s) == [s[0]] + rest && DosLines(s)[1..] == rest;
      }
    }
  }

  /** The line-end convention of a text without stray CRs does not reach its hash. */
  lemma {:induction false} LineEndsDoNotMatter(s: string)
    requires '\r' !in s
    ensures Normalize(DosLines(s)) == Normalize(s)
  {
    UnixOfDos(s);
    UnixOfPlain(s);
  }

  /* ---------------- check_schemas ---------------- */

  /** compare_schema_hashes: same names, no empty text, same hash under every name. */
  predicate HashesMatch(expected: map<string, string>, observed: map<string, string>, hash: string -> string) {
    && expected.Keys == observed.Keys
    && forall name :: name in expected ==>
         && expected[name] != "" && observed[name] != ""
         && hash(Normalize(expected[name])) == hash(Normalize(observed[name]))
  }

  /** What the plugin schemas of a control plane must be for the check to pass. */
  predicate InStep(server: Server, n: nat, expected: map<string, string>, hash: string -> string) {
    && Lists(server, n) && GoodItems(Answered(server, n))
    && forall name :: name in expected ==>
         && expected[name] != "" && name in Found(Answered(server, n))
         && hash(Normalize(expected[name])) == hash(Normalize(Found(Answered(server, n))[name]))
  }

  lemma {:induction false} FoundIsText(items: seq<Json>)
    requires GoodItems(items)
    ensures forall name :: name in Found(items) ==> Found(items)[name] != ""
  {
    if items != [] {
      GoodPrefix(items[..|items| - 1], items);
      FoundIsText(items[..|items| - 1]);
    }
  }

  /** The third-party check passes exactly when the server lists, completely and within the
      request limit, well-formed schemas that match every expected text up to line ends; for a
      brand-new control plane exactly when nothing is expected. */
  method CheckSchemas(server: Server, expected: map<string, string>, hash: string -> string) returns (ok: bool)
    ensures BrandNew(server) ==> (ok <==> expected == map[])
    ensures !BrandNew(server) ==> (ok <==> exists n :: InStep(server, n, expected, hash))
  {
    hide Lists, GoodItems, Found, Filed, AllItems, Answered, BrandNew, Complete;
    var pages, requests := RequestSchemaPages(server);
    if pages.Err? {
      return false;
    }
    var observed := CollectSchemaPages(pages.value, expected.Keys);
    if BrandNew(server) {
      EmptyPageAccepted(expected.Keys);
    } else {
      ListedPagesAreAccepted(server, requests, expected.Keys);
      OneListing(server, requests);
    }
    if observed.Err? {
      return false;
    }
    if !BrandNew(server) && GoodItems(Answered(server, requests)) {
      FoundIsText(Answered(server, requests));
    }
    ok := HashesMatch(expected, observed.value, hash);
    assert !BrandNew(server) ==> (ok <==> InStep(server, requests, expected, hash));
  }

  /** A server has one listing at most. */
  lemma {:induction false} OneListing(server: Server, n: nat)
    requires Lists(server, n)
    ensures forall m: nat :: Lists(server, m) ==> m == n
  {
    forall m: nat | Lists(server, m) ensures m == n {
      NoneLater(server, n, m);
      NoneLater(server, m, n);
    }
  }

  lemma {:induction false} NoneLater(server: Server, n: nat, m: nat)
    requires Lists(server, n) && Lists(server, m)
    ensures m <= n
  {
    hide Complete, Kept, Ends;
    ListsExactly(server, n);
    ListsExactly(server, m);
    EndsNotKept(server, n - 1);
  }
}
