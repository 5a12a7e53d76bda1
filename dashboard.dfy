/** The brand list of the dashboard page: the brand entries, the name field of
    the add/edit dialog, the brand being edited and whether the dialog is open,
    with the handlers that change them and the link to a brand's insights. */
module Dashboard {
  import opened Wrappers
  import opened Text

  // ---------------------------------------------------------------------------
  // Brands
  // ---------------------------------------------------------------------------

  /** A brand as the page keeps it. `name` is the extra field the update
      handler writes with an object spread; nothing on the page displays it. */
  datatype Brand = Brand(brandId: string, brandName: string, name: Option<string>)

  /** A brand as the server returns it (only the two fields the page maps). */
  datatype ServerBrand = ServerBrand(brandId: string, brandName: string)

  /** The names the brand cards show, in list order. */
  function Names(brands: seq<Brand>): (r: seq<string>)
    ensures |r| == |brands|
    ensures forall i :: 0 <= i < |r| ==> r[i] == brands[i].brandName
  {
    if brands == [] then [] else [brands[0].brandName] + Names(brands[1..])
  }

  /** The server rows mapped to page brands: same order, same ids and names,
      and no `name` field yet. */
  function FromServer(rows: seq<ServerBrand>): (r: seq<Brand>)
    ensures |r| == |rows|
    ensures forall i :: 0 <= i < |r| ==>
              r[i].brandId == rows[i].brandId && r[i].brandName == rows[i].brandName && r[i].name == None
  {
    if rows == [] then [] else [Brand(rows[0].brandId, rows[0].brandName, None)] + FromServer(rows[1..])
  }

  /** The list the update handler builds: every entry whose id is `id` gains
      `name := text`; every entry keeps its place, its id and its shown name,
      and the others are untouched. */
  function Renamed(brands: seq<Brand>, id: string, text: string): (r: seq<Brand>)
    ensures |r| == |brands|
    ensures forall i :: 0 <= i < |r| ==>
              r[i].brandId == brands[i].brandId && r[i].brandName == brands[i].brandName
    ensures forall i :: 0 <= i < |r| ==>
              (brands[i].brandId == id ==> r[i].name == Some(text)) &&
              (brands[i].brandId != id ==> r[i] == brands[i])
    ensures Names(r) == Names(brands)
  {
    if brands == [] then []
    else
      var b := brands[0];
      var rest := Renamed(brands[1..], id, text);
      var r := [if b.brandId == id then b.(name := Some(text)) else b] + rest;
      assert Names(r) == [b.brandName] + Names(rest);
      r
  }

  /** Renaming twice with the same text is renaming once. */
  lemma {:induction false} RenamedIdempotent(brands: seq<Brand>, id: string, text: string)
    ensures Renamed(Renamed(brands, id, text), id, text) == Renamed(brands, id, text)
  {
    if brands != [] {
      RenamedIdempotent(brands[1..], id, text);
    }
  }

  /** The list the delete handler builds: the entries whose id is not `id`. */
  function WithoutBrand(brands: seq<Brand>, id: string): (r: seq<Brand>)
    ensures |r| <= |brands|
    ensures forall b :: b in r <==> b in brands && b.brandId != id
    ensures (forall i :: 0 <= i < |brands| ==> brands[i].brandId != id) ==> r == brands
  {
    if brands == [] then []
    else if brands[0].brandId != id then [brands[0]] + WithoutBrand(brands[1..], id)
    else WithoutBrand(brands[1..], id)
  }

  /** How many entries carry the id `id`. */
  function CountWithId(brands: seq<Brand>, id: string): (r: nat) {
    if brands == [] then 0 else (if brands[0].brandId == id then 1 else 0) + CountWithId(brands[1..], id)
  }

  /** Deleting keeps the original order: the filter of a concatenation is the
      concatenation of the filters. */
  lemma {:induction false} WithoutBrandConcat(a: seq<Brand>, b: seq<Brand>, id: string)
    ensures WithoutBrand(a + b, id) == WithoutBrand(a, id) + WithoutBrand(b, id)
  {
    if a == [] {
      assert a + b == b;
    } else {
      assert (a + b)[1..] == a[1..] + b;
      WithoutBrandConcat(a[1..], b, id);
    }
  }

  /** Deleting removes exactly the entries that carry the id. */
  lemma {:induction false} WithoutBrandLength(brands: seq<Brand>, id: string)
    ensures |WithoutBrand(brands, id)| == |brands| - CountWithId(brands, id)
  {
    if brands != [] {
      WithoutBrandLength(brands[1..], id);
    }
  }

  /** Deleting the same id twice is deleting it once. */
  lemma WithoutBrandIdempotent(brands: seq<Brand>, id: string)
    ensures WithoutBrand(WithoutBrand(brands, id), id) == WithoutBrand(brands, id)
  {
    var r := WithoutBrand(brands, id);
    forall i | 0 <= i < |r| ensures r[i].brandId != id {
      assert r[i] in r;
    }
  }

  // ---------------------------------------------------------------------------
  // The insights link
  // ---------------------------------------------------------------------------

  const InsightsPrefix: string := "/insights/"

  /** The path the "Get Insights" button navigates to; neither part is escaped. */
  function InsightsPath(brandName: string, brandId: string): (r: string)
    ensures |r| > |InsightsPrefix| + |brandName| && r[..|InsightsPrefix|] == InsightsPrefix
  {
    InsightsPrefix + brandName + "?id=" + brandId
  }

  /** When the brand name has no `?`, the link's first `?` comes right after the
      name, so the query holds exactly `id=` and the id. */
  lemma InsightsPathQueryStart(brandName: string, brandId: string)
    requires '?' !in brandName
    ensures IndexOf(InsightsPath(brandName, brandId), '?') == |InsightsPrefix| + |brandName|
    ensures InsightsPath(brandName, brandId)[|InsightsPrefix| + |brandName| + 1..] == "id=" + brandId
  {
    var r := InsightsPath(brandName, brandId);
    var q := |InsightsPrefix| + |brandName|;
    assert r == InsightsPrefix + brandName + "?id=" + brandId;
    assert r[q] == '?';
    forall k | 0 <= k < q ensures r[k] != '?' {
      if k >= |InsightsPrefix| {
        assert r[k] == brandName[k - |InsightsPrefix|];
      }
    }
    assert r[q + 1..] == "id=" + brandId;
  }

  /** What the insights page reads back from a path: the `:brandName` segment
      and the `id` query value, `""` when there is none. */
  datatype Route = Route(brandName: string, brandId: string)

  /** The value of the first `key` parameter of a query string (the text after
      `?`), as `URLSearchParams.get` finds it, without percent-decoding. */
  function QueryParam(query: string, key: string): (r: Option<string>)
    ensures r.Some? ==> '&' !in r.value
    decreases |query|
  {
    var j := IndexOf(query, '&');
    var pair := query[..j];
    var e := IndexOf(pair, '=');
    if pair[..e] == key then Some(if e < |pair| then pair[e + 1..] else "")
    else if j == |query| then None
    else QueryParam(query[j + 1..], key)
  }

  /** A query of one pair (no `&`): its value when the pair is named `key`, otherwise none. */
  lemma QueryParamLastPair(pair: string, key: string)
    requires '&' !in pair
    ensures var e := IndexOf(pair, '=');
            QueryParam(pair, key) == if pair[..e] == key then Some(if e < |pair| then pair[e + 1..] else "") else None
  {
    assert IndexOf(pair, '&') == |pair|;
    assert pair[..|pair|] == pair;
  }

  /** The first pair decides: its value when it is named `key`, otherwise the
      answer for the pairs after it. */
  lemma QueryParamFirstPair(pair: string, rest: string, key: string)
    requires '&' !in pair
    ensures var e := IndexOf(pair, '=');
            QueryParam(pair + "&" + rest, key)
            == if pair[..e] == key then Some(if e < |pair| then pair[e + 1..] else "") else QueryParam(rest, key)
  {
    var query := pair + "&" + rest;
    assert IndexOf(query, '&') == |pair| by {
      assert query[|pair|] == '&';
      forall k | 0 <= k < |pair| ensures query[k] != '&' {
        assert query[k] == pair[k];
      }
    }
    assert query[..|pair|] == pair;
    assert query[|pair| + 1..] == rest;
  }

  /** The path without its trailing slashes, which route matching ignores. */
  function TrimTrailingSlashes(s: string): (r: string)
    ensures |r| <= |s| && r == s[..|r|]
    ensures forall i :: |r| <= i < |s| ==> s[i] == '/'
    ensures r != [] ==> r[|r| - 1] != '/'
  {
    if s != [] && s[|s| - 1] == '/' then TrimTrailingSlashes(s[..|s| - 1]) else s
  }

  /** Matching a path against the route `/insights/:brandName` and reading
      `id` from its query, as the insights page does. */
  function ParseInsightsPath(path: string): (r: Option<Route>)
    ensures r.Some? ==> r.value.brandName != [] && '/' !in r.value.brandName && '?' !in r.value.brandName
  {
    if |path| < |InsightsPrefix| || path[..|InsightsPrefix|] != InsightsPrefix then None
    else
      var rest := path[|InsightsPrefix|..];
      var q := IndexOf(rest, '?');
      var segment := TrimTrailingSlashes(rest[..q]);
      if segment == [] || '/' in segment then None
      else
        var id := if q == |rest| then None else QueryParam(rest[q + 1..], "id");
        Some(Route(segment, match id case Some(v) => v case None => ""))
  }

  /** Characters that end the `:brandName` segment, or that URL parsing or
      percent-decoding would change in it. */
  predicate SegmentSpecial(c: char) {
    c in "/?#%\\\t\n\r"
  }

  /** Characters that end the `id` value, or that URL parsing or decoding would change in it. */
  predicate QuerySpecial(c: char) {
    c in "&#%+\t\n\r"
  }

  /** The query the link builds gives back the id. */
  lemma QueryOfId(brandId: string)
    requires '&' !in brandId
    ensures QueryParam("id=" + brandId, "id") == Some(brandId)
  {
    var query := "id=" + brandId;
    assert IndexOf(query, '&') == |query| by {
      forall k | 0 <= k < |query| ensures query[k] != '&' {
        if k >= 3 {
          assert query[k] == brandId[k - 3];
        }
      }
    }
    assert query[0] == 'i' && query[1] == 'd' && query[2] == '=';
    assert IndexOf(query, '=') == 2;
    assert query[..|query|] == query;
    assert query[..2] == "id";
    assert query[3..] == brandId;
  }

  /** A brand whose name and id hold none of the characters that end a path
      segment or a query value, or that URL parsing or decoding would change,
      whose name is not a dot segment and whose id does not end in a space or
      control character (which URL parsing strips from the end of a link),
      gets back both from its insights link. */
  lemma InsightsPathRoundTrip(brandName: string, brandId: string)
    requires brandName != [] && brandName != "." && brandName != ".."
    requires forall c :: c in brandName ==> !SegmentSpecial(c)
    requires forall c :: c in brandId ==> !QuerySpecial(c)
    requires brandId == [] || brandId[|brandId| - 1] > ' '
    ensures ParseInsightsPath(InsightsPath(brandName, brandId)) == Some(Route(brandName, brandId))
  {
    assert '?' !in brandName && '/' !in brandName by {
      assert !SegmentSpecial('?') ==> '?' !in brandName;
      assert !SegmentSpecial('/') ==> '/' !in brandName;
    }
    assert '&' !in brandId by {
      assert !QuerySpecial('&') ==> '&' !in brandId;
    }
    var path := InsightsPath(brandName, brandId);
    InsightsPathQueryStart(brandName, brandId);
    var rest := path[|InsightsPrefix|..];
    assert IndexOf(rest, '?') == |brandName| by {
      var q := |InsightsPrefix| + |brandName|;
      assert rest[|brandName|] == path[q] == '?';
      forall k | 0 <= k < |brandName| ensures rest[k] != '?' {
        assert rest[k] == path[|InsightsPrefix| + k];
      }
    }
    assert rest[..|brandName|] == brandName by {
      assert path == InsightsPrefix + brandName + "?id=" + brandId;
    }
    assert TrimTrailingSlashes(brandName) == brandName by {
      assert brandName[|brandName| - 1] in brandName;
    }
    assert rest[|brandName| + 1..] == "id=" + brandId;
    QueryOfId(brandId);
  }

  /** Without escaping, a `?` in a brand name is read as the start of the
      query: the brand "a?b" with id "1" comes back as brand "a" with no id. */
  lemma InsightsPathQuestionMark()
    ensures ParseInsightsPath(InsightsPath("a?b", "1")) == Some(Route("a", ""))
  {
    var path := InsightsPath("a?b", "1");
    var rest := path[|InsightsPrefix|..];
    assert rest == "a?b?id=1";
    assert IndexOf(rest, '?') == 1 by {
      assert rest[0] == 'a' && rest[1] == '?';
    }
    assert rest[..1] == "a";
    var query := rest[2..];
    assert query == "b?id=1";
    assert QueryParam(query, "id") == None by {
      assert IndexOf(query, '&') == |query|;
      assert query[..|query|] == query;
      assert query[0] == 'b' && query[1] == '?' && query[2] == 'i' && query[3] == 'd' && query[4] == '=';
      assert IndexOf(query, '=') == 4;
      assert query[..4] == "b?id";
    }
  }

  /** Route matching ignores trailing slashes: the brand "a/" with id "1"
      comes back as brand "a". */
  lemma InsightsPathTrailingSlash()
    ensures ParseInsightsPath(InsightsPath("a/", "1")) == Some(Route("a", "1"))
  {
    var rest := "a/?id=1";
    assert InsightsPath("a/", "1")[|InsightsPrefix|..] == rest;
    assert IndexOf(rest, '?') == 2 by {
      assert rest[0] == 'a' && rest[1] == '/' && rest[2] == '?';
    }
    assert rest[..2] == "a/";
    assert TrimTrailingSlashes("a/") == "a" by {
      assert "a/"[..1] == "a";
    }
    var query := rest[3..];
    assert |query| == 4;
    assert query[0] == 'i' && query[1] == 'd' && query[2] == '=' && query[3] == '1';
    assert query == "id=1";
    QueryOfId("1");
    assert "id=" + "1" == "id=1";
  }

  /** Two different brands can share one link. */
  lemma InsightsPathAmbiguous()
    ensures InsightsPath("a?id=b", "c") == InsightsPath("a", "b?id=c")
  {
  }

  // ---------------------------------------------------------------------------
  // The page state and its handlers
  // ---------------------------------------------------------------------------

  class BrandBoard {
    var brands: seq<Brand>
    var newBrandName: string
    var editingBrand: Option<Brand>
    var isModalOpen: bool

    /** The state before the brands are fetched. */
    constructor()
      ensures brands == [] && newBrandName == "" && editingBrand == None && !isModalOpen
    {
      brands := [];
      newBrandName := "";
      editingBrand := None;
      isModalOpen := false;
    }

    /** Whether the dialog's submit button is enabled: the name is not all white space. */
    function CanSubmit(): (r: bool)
      reads this
      ensures r <==> !AllSpace(newBrandName)
    {
      TrimEmptyIff(newBrandName);
      Trim(newBrandName) != []
    }

    /** The fetched brands replace the list. */
    method LoadBrands(rows: seq<ServerBrand>)
      modifies this
      ensures brands == FromServer(rows)
      ensures newBrandName == old(newBrandName) && editingBrand == old(editingBrand) && isModalOpen == old(isModalOpen)
    {
      brands := FromServer(rows);
    }

    /** Either "add" button opens the dialog; the text and the edited brand stay as they are. */
    method OpenModal()
      modifies this
      ensures isModalOpen
      ensures brands == old(brands) && newBrandName == old(newBrandName) && editingBrand == old(editingBrand)
    {
      isModalOpen := true;
    }

    /** Typing in the dialog replaces the name text. */
    method SetNewBrandName(text: string)
      modifies this
      ensures newBrandName == text
      ensures brands == old(brands) && editingBrand == old(editingBrand) && isModalOpen == old(isModalOpen)
    {
      newBrandName := text;
    }

    /** Adds a brand under the caller's fresh id `newId`. When the name is all
        white space nothing changes and nothing is sent; otherwise the
        untrimmed text is sent to the server, the trimmed name is appended as
        a new last entry, the text is cleared and the dialog closes. */
    method AddBrand(newId: string) returns (sent: Option<string>)
      modifies this
      ensures AllSpace(old(newBrandName)) ==>
                sent == None && brands == old(brands) &&
                newBrandName == old(newBrandName) && isModalOpen == old(isModalOpen)
      ensures !AllSpace(old(newBrandName)) ==>
                sent == Some(old(newBrandName)) &&
                brands == old(brands) + [Brand(newId, Trim(old(newBrandName)), None)] &&
                newBrandName == "" && !isModalOpen
      ensures editingBrand == old(editingBrand)
    {
      TrimEmptyIff(newBrandName);
      sent := None;
      if Trim(newBrandName) != [] {
        sent := Some(newBrandName);
        brands := brands + [Brand(newId, Trim(newBrandName), None)];
        newBrandName := "";
        isModalOpen := false;
      }
    }

    /** Opens the dialog on brand `b`, its shown name in the text field. */
    method EditBrand(b: Brand)
      modifies this
      ensures editingBrand == Some(b) && newBrandName == b.brandName && isModalOpen
      ensures brands == old(brands)
    {
      editingBrand := Some(b);
      newBrandName := b.brandName;
      isModalOpen := true;
    }

    /** Saves the edit. It does nothing unless the name is not all white
        space and a brand is being edited; then every entry with the edited
        id gains `name` = the trimmed text, no shown name changes, and the
        dialog is reset and closed. */
    method UpdateBrand()
      modifies this
      ensures AllSpace(old(newBrandName)) || old(editingBrand) == None ==>
              brands == old(brands) && newBrandName == old(newBrandName) &&
              editingBrand == old(editingBrand) && isModalOpen == old(isModalOpen)
      ensures !AllSpace(old(newBrandName)) && old(editingBrand).Some? ==>
              brands == Renamed(old(brands), old(editingBrand).value.brandId, Trim(old(newBrandName))) &&
              newBrandName == "" && editingBrand == None && !isModalOpen
      ensures Names(brands) == Names(old(brands))
    {
      TrimEmptyIff(newBrandName);
      if Trim(newBrandName) != [] && editingBrand.Some? {
        brands := Renamed(brands, editingBrand.value.brandId, Trim(newBrandName));
        newBrandName := "";
        editingBrand := None;
        isModalOpen := false;
      }
    }

    /** Removes every entry with id `id`. */
    method DeleteBrand(id: string)
      modifies this
      ensures brands == WithoutBrand(old(brands), id)
      ensures forall b :: b in brands ==> b.brandId != id
      ensures newBrandName == old(newBrandName) && editingBrand == old(editingBrand) && isModalOpen == old(isModalOpen)
    {
      brands := WithoutBrand(brands, id);
    }

    /** Closes the dialog and forgets the text and the edited brand. */
    method ModalClose()
      modifies this
      ensures !isModalOpen && newBrandName == "" && editingBrand == None
      ensures brands == old(brands)
    {
      isModalOpen := false;
      newBrandName := "";
      editingBrand := None;
    }

    /** The dialog's submit (button or Enter): update while editing, add otherwise. */
    method Submit(newId: string) returns (sent: Option<string>)
      modifies this
      ensures old(editingBrand).Some? ==> sent == None
      ensures old(editingBrand).Some? && AllSpace(old(newBrandName)) ==>
                brands == old(brands) && newBrandName == old(newBrandName) &&
                editingBrand == old(editingBrand) && isModalOpen == old(isModalOpen)
      ensures old(editingBrand).Some? && !AllSpace(old(newBrandName)) ==>
                brands == Renamed(old(brands), old(editingBrand).value.brandId, Trim(old(newBrandName))) &&
                newBrandName == "" && editingBrand == None && !isModalOpen
      ensures old(editingBrand) == None && AllSpace(old(newBrandName)) ==>
                sent == None && brands == old(brands) &&
                newBrandName == old(newBrandName) && editingBrand == None && isModalOpen == old(isModalOpen)
      ensures old(editingBrand) == None && !AllSpace(old(newBrandName)) ==>
                sent == Some(old(newBrandName)) &&
                brands == old(brands) + [Brand(newId, Trim(old(newBrandName)), None)] &&
                newBrandName == "" && editingBrand == None && !isModalOpen
      ensures Names(brands)[..|old(brands)|] == Names(old(brands))
    {
      if editingBrand.Some? {
        UpdateBrand();
        sent := None;
      } else {
        sent := AddBrand(newId);
      }
    }
  }
}
