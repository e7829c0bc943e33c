/**
 * The `sort` query parameter of GET /zones: a comma list of field names, each
 * optionally prefixed by `-` for descending order, folded into the sort object
 * handed to the document store.
 *
 * A JavaScript object keeps its keys in first-insertion order, and assigning
 * to a key it already has changes the value but not the position. The store
 * sorts by the keys in that order, so the sort object is modelled as an
 * ordered list of entries rather than as a map.
 */
module SortSpec {
  import opened Js

  /** One key of the sort object: 1 is ascending, -1 descending. */
  datatype SortEntry = SortEntry(key: string, dir: int)

  /** `sortQuery[0] === '-'`; on the empty token `sortQuery[0]` is `undefined`, so no. */
  predicate Descending(token: string)
  {
    |token| > 0 && token[0] == '-'
  }

  /** The key a token sorts on: the token without its `-`, with `nameEN` renamed. */
  function SortKey(token: string): string
  {
    var field := if Descending(token) then token[1..] else token;
    if field == "nameEN" then "name.en" else field
  }

  /** The direction a token asks for. */
  function SortDir(token: string): int
  {
    if Descending(token) then -1 else 1
  }

  /** The keys of a sort object, in order. */
  function Keys(obj: seq<SortEntry>): (ks: seq<string>)
    ensures |ks| == |obj|
  {
    if obj == [] then [] else [obj[0].key] + Keys(obj[1..])
  }

  /** `obj[key]`: the direction stored under `key`, if any. */
  function Lookup(obj: seq<SortEntry>, key: string): Option<int>
  {
    if obj == [] then None
    else if obj[0].key == key then Some(obj[0].dir)
    else Lookup(obj[1..], key)
  }

  /** A key has a direction exactly when it is one of the object's keys. */
  lemma {:induction false} LookupFindsKeys(obj: seq<SortEntry>, key: string)
    ensures Lookup(obj, key).Some? <==> key in Keys(obj)
  {
    if obj != [] {
      LookupFindsKeys(obj[1..], key);
    }
  }

  /**
   * `obj[key] = dir`: an existing key keeps its place and takes the new
   * direction, a new key goes last, and no other key changes.
   */
  function Assign(obj: seq<SortEntry>, key: string, dir: int): (r: seq<SortEntry>)
    ensures Keys(r) == if key in Keys(obj) then Keys(obj) else Keys(obj) + [key]
    ensures Lookup(r, key) == Some(dir)
    ensures forall other :: other != key ==> Lookup(r, other) == Lookup(obj, other)
  {
    if obj == [] then [SortEntry(key, dir)]
    else if obj[0].key == key then [SortEntry(key, dir)] + obj[1..]
    else [obj[0]] + Assign(obj[1..], key, dir)
  }

  /** The `reduce` over the tokens, starting from `{}`. */
  function SortObject(tokens: seq<string>): seq<SortEntry>
  {
    if tokens == [] then []
    else
      var last := tokens[|tokens| - 1];
      Assign(SortObject(tokens[..|tokens| - 1]), SortKey(last), SortDir(last))
  }

  /** The sort object for a `sort` parameter; `{}` when it is absent or empty. */
  function SortOf(sort: Option<string>): seq<SortEntry>
  {
    if Given(sort) then SortObject(Split(sort.value, ',')) else []
  }

  /** The keys the tokens ask for, one per token, repeats included. */
  function TokenKeys(tokens: seq<string>): seq<string>
  {
    seq(|tokens|, i requires 0 <= i < |tokens| => SortKey(tokens[i]))
  }

  /** The elements of `s` without repeats, each where it first occurs. */
  function FirstOccurrences(s: seq<string>): (d: seq<string>)
    ensures forall x :: x in d <==> x in s
    ensures forall i, j :: 0 <= i < j < |d| ==> d[i] != d[j]
  {
    if s == [] then []
    else
      var d := FirstOccurrences(s[..|s| - 1]);
      var x := s[|s| - 1];
      assert forall y :: y in s <==> y in s[..|s| - 1] || y == x by {
        assert s == s[..|s| - 1] + [x];
      }
      if x in d then d else d + [x]
  }

  /**
   * The keys of the sort object are the tokens' keys without repeats, in the
   * order in which each first appears: hence exactly the set of the tokens'
   * keys, each once.
   */
  lemma {:induction false} SortKeysInFirstOrder(tokens: seq<string>)
    ensures Keys(SortObject(tokens)) == FirstOccurrences(TokenKeys(tokens))
  {
    if tokens != [] {
      var n := |tokens| - 1;
      SortKeysInFirstOrder(tokens[..n]);
      assert TokenKeys(tokens)[..n] == TokenKeys(tokens[..n]);
    }
  }

  /**
   * When a key is asked for more than once, the direction of its last
   * occurrence is the one stored.
   */
  lemma {:induction false} LastOccurrenceWins(tokens: seq<string>, i: nat)
    requires i < |tokens|
    requires forall j :: i < j < |tokens| ==> SortKey(tokens[j]) != SortKey(tokens[i])
    ensures Lookup(SortObject(tokens), SortKey(tokens[i])) == Some(SortDir(tokens[i]))
  {
    var n := |tokens| - 1;
    var prefix := tokens[..n];
    var key := SortKey(tokens[i]);
    var before := SortObject(prefix);
    assert SortObject(tokens) == Assign(before, SortKey(tokens[n]), SortDir(tokens[n]));
    if i < n {
      assert prefix[i] == tokens[i];
      forall j | i < j < |prefix|
        ensures SortKey(prefix[j]) != key
      {
        assert prefix[j] == tokens[j];
      }
      LastOccurrenceWins(prefix, i);
      assert Lookup(before, key) == Some(SortDir(tokens[i]));
    }
  }

  /** One more token assigns its key and direction to the object built so far. */
  lemma SortObjectStep(tokens: seq<string>, i: nat)
    requires i < |tokens|
    ensures SortObject(tokens[..i + 1]) == Assign(SortObject(tokens[..i]), SortKey(tokens[i]), SortDir(tokens[i]))
  {
    assert tokens[..i + 1][..i] == tokens[..i];
  }

  /**
   * The list handler's `reduce` over the `sort` tokens: starting from `{}`, each token of a given
   * `sort` parameter assigns its direction to its key.
   */
  method ParseSort(sort: Option<string>) returns (obj: seq<SortEntry>)
    ensures obj == SortOf(sort)
  {
    obj := [];
    if Given(sort) {
      var tokens := Split(sort.value, ',');
      var i := 0;
      while i < |tokens|
        invariant 0 <= i <= |tokens|
        invariant obj == SortObject(tokens[..i])
      {
        var sortQuery := tokens[i];
        var sortFields := if |sortQuery| > 0 && sortQuery[0] == '-' then sortQuery[1..] else sortQuery;
        if sortFields == "nameEN" {
          sortFields := "name.en";
        }
        SortObjectStep(tokens, i);
        assert sortFields == SortKey(sortQuery);
        if |sortQuery| > 0 && sortQuery[0] == '-' {
          obj := Assign(obj, sortFields, -1);
        } else {
          obj := Assign(obj, sortFields, 1);
        }
        i := i + 1;
      }
      assert tokens[..|tokens|] == tokens;
    }
  }
}
