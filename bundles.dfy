/** The resource bundles a resource instance reads its templates from, as
    java.util.ResourceBundle presents them: a bundle holds its own
    key/template entries and may have a parent bundle (the less specific
    locale) that getString searches when the key is not among its own. */
module Bundles {
  import opened Wrappers

  /** A java.util.Locale: language, country and variant. */
  datatype Locale = Locale(language: string, country: string, variant: string)

  datatype Bundle = Bundle(entries: map<string, string>, parent: Option<Bundle>)

  /** The entry tables getString consults, in search order: the bundle's own
      entries first, then those of each ancestor. */
  function Chain(b: Bundle): (levels: seq<map<string, string>>)
    ensures |levels| >= 1 && levels[0] == b.entries
    decreases b
  {
    [b.entries] + (if b.parent.Some? then Chain(b.parent.value) else [])
  }

  /** Level i of the chain is the first that defines key, and maps it to v. */
  ghost predicate FoundAt(levels: seq<map<string, string>>, key: string, i: int, v: string)
  {
    && 0 <= i < |levels|
    && key in levels[i] && levels[i][key] == v
    && forall j :: 0 <= j < i ==> key !in levels[j]
  }

  /** ResourceBundle.getString: the template stored under key in the nearest
      bundle of the chain that has one; None stands for the
      MissingResourceException thrown when no bundle of the chain has it. */
  function GetString(b: Bundle, key: string): (r: Option<string>)
    ensures r.None? <==> forall j :: 0 <= j < |Chain(b)| ==> key !in Chain(b)[j]
    decreases b
  {
    if key in b.entries then
      assert key in Chain(b)[0];
      Some(b.entries[key])
    else if b.parent.Some? then
      var p := b.parent.value;
      assert Chain(b) == [b.entries] + Chain(p);
      assert forall j :: 0 <= j < |Chain(p)| ==> Chain(b)[j + 1] == Chain(p)[j];
      GetString(p, key)
    else None
  }

  /** What getString returns is the template of the first bundle in the
      chain that defines key. */
  lemma {:induction false} GetStringFoundAt(b: Bundle, key: string)
    requires GetString(b, key).Some?
    ensures exists i :: FoundAt(Chain(b), key, i, GetString(b, key).value)
    decreases b
  {
    var v := GetString(b, key).value;
    if key in b.entries {
      assert FoundAt(Chain(b), key, 0, v);
    } else {
      var p := b.parent.value;
      GetStringFoundAt(p, key);
      var i :| FoundAt(Chain(p), key, i, v);
      assert Chain(b) == [b.entries] + Chain(p);
      assert FoundAt(Chain(b), key, i + 1, v);
    }
  }

  /** A key is found at one level of the chain at most, with one template. */
  lemma FoundAtUnique(levels: seq<map<string, string>>, key: string, i: int, v: string, i': int, v': string)
    requires FoundAt(levels, key, i, v) && FoundAt(levels, key, i', v')
    ensures i == i' && v == v'
  {
  }

  /** getString yields v exactly when v is the template of the first bundle
      in the chain that defines key. */
  lemma {:induction false} GetStringIsFirstMatch(b: Bundle, key: string, v: string)
    ensures GetString(b, key) == Some(v) ==> exists i :: FoundAt(Chain(b), key, i, v)
    ensures (exists i :: FoundAt(Chain(b), key, i, v)) ==> GetString(b, key) == Some(v)
  {
    if GetString(b, key).Some? {
      GetStringFoundAt(b, key);
    }
    if exists i :: FoundAt(Chain(b), key, i, v) {
      var i :| FoundAt(Chain(b), key, i, v);
      var r := GetString(b, key);
      assert r.Some?;
      GetStringFoundAt(b, key);
      var i' :| FoundAt(Chain(b), key, i', r.value);
      FoundAtUnique(Chain(b), key, i, v, i', r.value);
    }
  }

  /** A bundle without a parent is a plain key/template map. */
  lemma GetStringWithoutParent(b: Bundle, key: string)
    requires b.parent.None?
    ensures GetString(b, key) == if key in b.entries then Some(b.entries[key]) else None
  {
  }
}
