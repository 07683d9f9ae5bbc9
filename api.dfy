/** helpers/api/index.ts of the admin UI: the URL `apiCore.get` requests. */
module Api {
  import opened Common
  import Text

  /** One `key=value` pair of the query string, without percent-encoding. */
  function Entry(key: string, value: string): string
  {
    key + "=" + value
  }

  /** The entries of a parameters object, in `Object.keys` order. */
  function Entries(params: seq<(string, string)>): (es: seq<string>)
    ensures |es| == |params|
    ensures forall i :: 0 <= i < |params| ==> es[i] == Entry(params[i].0, params[i].1)
  {
    seq(|params|, i requires 0 <= i < |params| => Entry(params[i].0, params[i].1))
  }

  /** The URL handed to `instance.get`: the URL itself without parameters,
      else the URL, '?', and the entries joined by '&'. `params` lists the
      object's properties in `Object.keys` order. */
  function GetURL(url: string, params: Option<seq<(string, string)>>): (r: string)
    ensures params.None? ==> r == url
    ensures params.Some? ==> |r| > |url| && r[..|url| + 1] == url + "?"
    ensures params == Some([]) ==> r == url + "?"
  {
    if params.Some? then url + "?" + Text.Join(Entries(params.value), "&") else url
  }

  /** The key of an entry: the text before its first '='. */
  function EntryKey(entry: string): string
  {
    entry[..Text.FirstIndex(entry, '=')]
  }

  /** The value of an entry: the text after its first '=', if any. */
  function EntryValue(entry: string): string
  {
    var i := Text.FirstIndex(entry, '=');
    if i < |entry| then entry[i + 1..] else ""
  }

  /** The query string parses back: when no key holds '=' or '&' and no
      value holds '&', splitting the text after '?' at '&' and each piece at
      its first '=' gives the parameters back, in order. */
  lemma QueryStringParses(url: string, params: seq<(string, string)>)
    requires |params| > 0
    requires forall i :: 0 <= i < |params| ==> '=' !in params[i].0 && '&' !in params[i].0 && '&' !in params[i].1
    ensures var parts := Text.Split(GetURL(url, Some(params))[|url| + 1..], '&');
      && |parts| == |params|
      && forall i :: 0 <= i < |params| ==> EntryKey(parts[i]) == params[i].0 && EntryValue(parts[i]) == params[i].1
  {
    var es := Entries(params);
    var r := GetURL(url, Some(params));
    assert r[|url| + 1..] == Text.Join(es, "&");
    forall i | 0 <= i < |params|
      ensures '&' !in es[i]
      ensures EntryKey(es[i]) == params[i].0 && EntryValue(es[i]) == params[i].1
    {
      var (k, v) := params[i];
      assert es[i] == k + ['='] + v;
      assert forall j :: 0 <= j < |es[i]| ==> es[i][j] == if j < |k| then k[j] else if j == |k| then '=' else v[j - |k| - 1];
      Text.FirstIndexOfJoined(k, '=', v);
      assert es[i][..|k|] == k;
      assert es[i][|k| + 1..] == v;
    }
    Text.SplitJoin(es, '&');
  }
}
