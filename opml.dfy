/** opml/opml.go: OPML subscription lists (the `xmlUrl`/`htmlUrl` outline
    attributes of OPML 2.0), the extension dispatch of `Load`, and the feed
    URL extraction of `URLs`. */
module Opml {
  import opened Common
  import Text

  datatype Outline = Outline(
    text: string, title: string, outlineType: string,
    xmlURL: string, htmlURL: string, favicon: string)
  datatype Head = Head(title: string)
  datatype Body = Body(outlines: seq<Outline>)
  datatype OPML = OPML(version: string, head: Head, body: Body)

  // ---------------------------------------------------------------------
  // URLs

  /** The URL one outline contributes: the XML URL, else the HTML URL, else
      none. */
  function OutlineURL(o: Outline): Option<string>
  {
    if o.xmlURL != "" then Some(o.xmlURL)
    else if o.htmlURL != "" then Some(o.htmlURL)
    else None
  }

  /** The type filter: `None` is Go's nil map, which lets every outline
      through. */
  predicate Passes(filter: Option<set<string>>, o: Outline)
  {
    filter.None? || o.outlineType in filter.value
  }

  /** The URLs extracted from `outlines` under `filter`, in outline order. */
  function URLsOf(outlines: seq<Outline>, filter: Option<set<string>>): seq<string>
  {
    if |outlines| == 0 then []
    else
      var last := outlines[|outlines| - 1];
      URLsOf(outlines[..|outlines| - 1], filter) +
        (if Passes(filter, last) && OutlineURL(last).Some? then [OutlineURL(last).value] else [])
  }

  /** The filter of `URLs(types...)`: nil when no types are given. */
  function FilterOf(types: seq<string>): (f: Option<set<string>>)
    ensures |types| == 0 <==> f.None?
    ensures f.Some? ==> forall t :: t in f.value <==> t in types
  {
    if |types| == 0 then None else Some(set t | t in types)
  }

  /** Extraction is compositional: the URLs of a concatenation are the URLs
      of each part, in order. */
  lemma {:induction false} URLsOfAppend(a: seq<Outline>, b: seq<Outline>, filter: Option<set<string>>)
    ensures URLsOf(a + b, filter) == URLsOf(a, filter) + URLsOf(b, filter)
    decreases |b|
  {
    if |b| == 0 {
      assert a + b == a;
    } else {
      var b' := b[..|b| - 1];
      assert (a + b)[..|a + b| - 1] == a + b';
      assert (a + b)[|a + b| - 1] == b[|b| - 1];
      URLsOfAppend(a, b', filter);
    }
  }

  /** What one outline contributes: its XML URL if non-empty, else its HTML
      URL if non-empty, else nothing, and nothing at all when the filter
      rejects its type. */
  lemma SingleOutline(o: Outline, filter: Option<set<string>>)
    ensures !Passes(filter, o) ==> URLsOf([o], filter) == []
    ensures Passes(filter, o) && o.xmlURL != "" ==> URLsOf([o], filter) == [o.xmlURL]
    ensures Passes(filter, o) && o.xmlURL == "" && o.htmlURL != "" ==> URLsOf([o], filter) == [o.htmlURL]
    ensures o.xmlURL == "" && o.htmlURL == "" ==> URLsOf([o], filter) == []
  {
    assert [o][..0] == [];
  }

  /** The result has no more elements than there are outlines and never
      holds an empty string. */
  lemma {:induction false} URLsOfBounds(outlines: seq<Outline>, filter: Option<set<string>>)
    ensures |URLsOf(outlines, filter)| <= |outlines|
    ensures forall u :: u in URLsOf(outlines, filter) ==> u != ""
  {
    if |outlines| > 0 {
      URLsOfBounds(outlines[..|outlines| - 1], filter);
    }
  }

  /** A filter naming every type present changes nothing, and a filter
      naming none of them removes everything. */
  lemma {:induction false} FilterExtremes(outlines: seq<Outline>, types: set<string>)
    ensures (forall i :: 0 <= i < |outlines| ==> outlines[i].outlineType in types) ==>
              URLsOf(outlines, Some(types)) == URLsOf(outlines, None)
    ensures (forall i :: 0 <= i < |outlines| ==> outlines[i].outlineType !in types) ==>
              URLsOf(outlines, Some(types)) == []
  {
    if |outlines| > 0 {
      var init := outlines[..|outlines| - 1];
      assert forall i :: 0 <= i < |init| ==> init[i] == outlines[i];
      FilterExtremes(init, types);
    }
  }

  /** `OPML.URLs(types...)`: build the type filter, then append the URL of
      every outline that passes it. */
  method URLs(o: OPML, types: seq<string>) returns (urls: seq<string>)
    ensures urls == URLsOf(o.body.outlines, FilterOf(types))
  {
    var filter: Option<set<string>> := None;
    if |types| > 0 {
      var seen: set<string> := {};
      for k := 0 to |types|
        invariant seen == set t | t in types[..k]
      {
        assert types[..k + 1] == types[..k] + [types[k]];
        seen := seen + {types[k]};
      }
      assert types[..|types|] == types;
      filter := Some(seen);
    }

    var outlines := o.body.outlines;
    urls := [];
    for k := 0 to |outlines|
      invariant urls == URLsOf(outlines[..k], filter)
    {
      assert outlines[..k + 1][..k] == outlines[..k];
      var outline := outlines[k];
      if filter.Some? && outline.outlineType !in filter.value {
        continue;
      }
      if outline.xmlURL != "" {
        urls := urls + [outline.xmlURL];
      } else if outline.htmlURL != "" {
        urls := urls + [outline.htmlURL];
      }
    }
    assert outlines[..|outlines|] == outlines;
  }

  // ---------------------------------------------------------------------
  // Load

  /** The index where the final element of a slash-separated path starts:
      just after its last '/', or 0 when it has none. */
  function ElementStart(path: string): (n: nat)
    ensures n <= |path|
    ensures n > 0 ==> path[n - 1] == '/'
    ensures forall k :: n <= k < |path| ==> path[k] != '/'
  {
    if |path| == 0 then 0
    else if path[|path| - 1] == '/' then |path|
    else ElementStart(path[..|path| - 1])
  }

  /** `filepath.Ext` on a slash-separated path: the suffix from the last '.'
      of the final path element, or "" when that element has no '.'. */
  function Ext(path: string): (r: string)
    ensures r != "" ==> r[0] == '.' && |r| <= |path| - ElementStart(path) && r == path[|path| - |r|..]
    ensures forall k :: 1 <= k < |r| ==> r[k] != '.' && r[k] != '/'
    ensures r == "" ==> forall k :: ElementStart(path) <= k < |path| ==> path[k] != '.'
  {
    ExtMeaning(path, |path|);
    ExtBefore(path, |path|)
  }

  /** The right-to-left scan of `filepath.Ext` over `path[..i]`. */
  function ExtBefore(path: string, i: nat): string
    requires i <= |path|
  {
    if i == 0 || path[i - 1] == '/' then ""
    else if path[i - 1] == '.' then path[i - 1..]
    else ExtBefore(path, i - 1)
  }

  /** The final element starts after any '/'. */
  lemma ElementStartAfterSlash(path: string, j: nat)
    requires j < |path| && path[j] == '/'
    ensures j < ElementStart(path)
  {
  }

  /** The final element starts no later than a '/'-free suffix. */
  lemma ElementStartWithin(path: string, j: nat)
    requires j <= |path|
    requires forall k :: j <= k < |path| ==> path[k] != '/'
    ensures ElementStart(path) <= j
  {
  }

  /** The scan stops at the start or at a '/' with no extension, and then
      the final element holds no '.'. */
  lemma ExtAtBoundary(path: string, i: nat)
    requires i <= |path| && (i == 0 || path[i - 1] == '/')
    requires forall k :: i <= k < |path| ==> path[k] != '.'
    ensures forall k :: ElementStart(path) <= k < |path| ==> path[k] != '.'
  {
    if i > 0 {
      ElementStartAfterSlash(path, i - 1);
    }
  }

  /** The scan stops at a '.', whose suffix lies in the final element and
      holds no further '.' or '/'. */
  lemma ExtAtDot(path: string, i: nat)
    requires 0 < i <= |path| && path[i - 1] == '.'
    requires forall k :: i <= k < |path| ==> path[k] != '.' && path[k] != '/'
    ensures var r := path[i - 1..];
      && |r| <= |path| - ElementStart(path)
      && (forall k :: 1 <= k < |r| ==> r[k] != '.' && r[k] != '/')
  {
    ElementStartWithin(path, i - 1);
    var r := path[i - 1..];
    assert forall k :: 1 <= k < |r| ==> r[k] == path[i - 1 + k];
  }

  /** The scan from `i` down, when `path[i..]` has neither '.' nor '/'. */
  lemma {:induction false} ExtMeaning(path: string, i: nat)
    requires i <= |path|
    requires forall k :: i <= k < |path| ==> path[k] != '.' && path[k] != '/'
    ensures var r := ExtBefore(path, i);
      && (r != "" ==> r[0] == '.' && |r| <= |path| - ElementStart(path) && r == path[|path| - |r|..])
      && (forall k :: 1 <= k < |r| ==> r[k] != '.' && r[k] != '/')
      && (r == "" ==> forall k :: ElementStart(path) <= k < |path| ==> path[k] != '.')
  {
    if i == 0 || path[i - 1] == '/' {
      assert ExtBefore(path, i) == "";
      ExtAtBoundary(path, i);
    } else if path[i - 1] == '.' {
      assert ExtBefore(path, i) == path[i - 1..];
      ExtAtDot(path, i);
    } else {
      assert ExtBefore(path, i) == ExtBefore(path, i - 1);
      ExtMeaning(path, i - 1);
    }
  }

  /** What the file system and the decoders make of the file at the path:
      the error of `os.Open`, the XML decoding, and the JSON decoding into a
      map of (possibly null) outlines. */
  datatype Files = Files(
    openError: Option<string>,
    xml: Result<OPML, string>,
    json: Result<map<string, Option<OPML>>, string>)

  const ErrNoJSONData := "could not find opml json data in object"

  /** `Load(path)`; `Ok(None)` is a nil outline with a nil error. */
  function Load(path: string, files: Files): (r: Result<Option<OPML>, string>)
    ensures files.openError.Some? ==> r == Err(files.openError.value)
    ensures files.openError.None? && Ext(path) !in {".opml", ".xml", ".json"} ==>
              r == Err("unknown extension " + Text.Quote(Ext(path)))
  {
    if files.openError.Some? then Err(files.openError.value)
    else
      var ext := Ext(path);
      if ext == ".opml" || ext == ".xml" then
        (match files.xml
         case Err(e) => Err(e)
         case Ok(outline) => Ok(Some(outline)))
      else if ext == ".json" then
        (match files.json
         case Err(e) => Err(e)
         case Ok(wrapper) => if "opml" in wrapper then Ok(wrapper["opml"]) else Err(ErrNoJSONData))
      else Err("unknown extension " + Text.Quote(ext))
  }

  /** A successful load went through the decoder its extension selects, and
      only a JSON null under "opml" gives a nil outline. */
  lemma LoadOutcomes(path: string, files: Files)
    requires Load(path, files).Ok?
    ensures files.openError.None?
    ensures Ext(path) != ".json" ==>
              Ext(path) in {".opml", ".xml"} && files.xml.Ok? && Load(path, files) == Ok(Some(files.xml.value))
    ensures Ext(path) == ".json" ==>
              files.json.Ok? && "opml" in files.json.value && Load(path, files) == Ok(files.json.value["opml"])
    ensures Load(path, files).value.None? ==> Ext(path) == ".json"
  {
  }
}
