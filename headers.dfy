/** `parse_headers`: the OTLP exporter headers, given as one comma-separated
    `key=value` string, turned into a dictionary. */
module Headers {
  import opened Text

  /** Whether a comma-separated item is kept: it must contain an `=`. */
  predicate IsPair(item: string)
  {
    '=' in item
  }

  /** The stripped key and value of a kept item; only its first `=` splits it. */
  function Entry(item: string): (kv: (string, string))
    requires IsPair(item)
    ensures Trimmed(kv.0) && Trimmed(kv.1)
  {
    var (k, v) := SplitAtFirst(item, '=');
    (Strip(k), Strip(v))
  }

  /** Whether `item` is kept and gives the key `key`. */
  predicate Defines(item: string, key: string)
  {
    IsPair(item) && Entry(item).0 == key
  }

  /** The dictionary built from `items` in order: each kept item writes its
      entry, a later item overwriting an earlier one with the same key. */
  function Collect(items: seq<string>): (headers: map<string, string>)
  {
    if items == [] then map[]
    else
      var acc := Collect(items[..|items| - 1]);
      var item := items[|items| - 1];
      if IsPair(item) then acc[Entry(item).0 := Entry(item).1] else acc
  }

  /** What `parse_headers(s)` returns. */
  function HeadersOf(s: string): (headers: map<string, string>)
  {
    if s == "" then map[] else Collect(Split(s, ','))
  }

  /** `parse_headers`: an empty string gives no headers; otherwise each
      comma-separated item that holds an `=` adds its entry. */
  method ParseHeaders(headersStr: string) returns (headers: map<string, string>)
    ensures headers == HeadersOf(headersStr)
    ensures headersStr == "" ==> headers == map[]
  {
    if headersStr == "" {
      return map[];
    }
    headers := map[];
    var items := Split(headersStr, ',');
    var i := 0;
    while i < |items|
      invariant 0 <= i <= |items|
      invariant headers == Collect(items[..i])
    {
      var item := items[i];
      assert items[..i + 1] == items[..i] + [item];
      CollectSnoc(items[..i], item);
      if '=' in item {
        var (key, value) := SplitAtFirst(item, '=');
        headers := headers[Strip(key) := Strip(value)];
      }
      i := i + 1;
    }
    assert items[..|items|] == items;
  }

  /** A key is present exactly when some kept item gives it. */
  lemma {:induction false} CollectKeys(items: seq<string>, key: string)
    ensures key in Collect(items) <==> exists i :: 0 <= i < |items| && Defines(items[i], key)
  {
    if items != [] {
      var n := |items|;
      var init := items[..n - 1];
      CollectKeys(init, key);
      if key in Collect(items) {
        if !Defines(items[n - 1], key) {
          assert key in Collect(init);
          var i :| 0 <= i < |init| && Defines(init[i], key);
          assert items[i] == init[i];
        }
      }
      if exists i :: 0 <= i < n && Defines(items[i], key) {
        var i :| 0 <= i < n && Defines(items[i], key);
        if i < n - 1 {
          assert init[i] == items[i];
          assert key in Collect(init);
        }
      }
    }
  }

  /** The value of a key is the one given by the last item that defines it. */
  lemma {:induction false} CollectLastWins(items: seq<string>, i: nat, key: string)
    requires i < |items| && Defines(items[i], key)
    requires forall j :: i < j < |items| ==> !Defines(items[j], key)
    ensures key in Collect(items) && Collect(items)[key] == Entry(items[i]).1
  {
    var n := |items|;
    if i < n - 1 {
      var init := items[..n - 1];
      assert init[i] == items[i];
      forall j | i < j < |init| ensures !Defines(init[j], key) {
        assert init[j] == items[j];
      }
      CollectLastWins(init, i, key);
      assert !Defines(items[n - 1], key);
    }
  }

  /** Every key and every value is free of surrounding whitespace. */
  lemma {:induction false} CollectTrimmed(items: seq<string>)
    ensures forall k :: k in Collect(items) ==> Trimmed(k) && Trimmed(Collect(items)[k])
  {
    if items != [] {
      CollectTrimmed(items[..|items| - 1]);
    }
  }

  /** Items without an `=` contribute nothing. */
  lemma {:induction false} CollectNoPairs(items: seq<string>)
    requires forall i :: 0 <= i < |items| ==> !IsPair(items[i])
    ensures Collect(items) == map[]
  {
    if items != [] {
      CollectNoPairs(items[..|items| - 1]);
    }
  }

  /** A header string with no `=` anywhere, such as `"bad,noequals"`, gives no headers. */
  lemma NoEqualsNoHeaders(s: string)
    requires '=' !in s
    ensures HeadersOf(s) == map[]
  {
    if s != "" {
      var items := Split(s, ',');
      forall i | 0 <= i < |items| ensures !IsPair(items[i]) {
        if IsPair(items[i]) {
          SplitPiecesFromSource(s, ',', i, '=');
        }
      }
      CollectNoPairs(items);
    }
  }

  /** Key membership and value of `parse_headers(s)` in terms of the
      comma-separated items of `s`: a key is present iff some item gives it,
      and its value is that of the last such item. */
  lemma HeadersOfItems(s: string, key: string)
    ensures var items := Split(s, ',');
      && (key in HeadersOf(s) <==> exists i :: 0 <= i < |items| && Defines(items[i], key))
      && forall i :: 0 <= i < |items| && Defines(items[i], key)
                     && (forall j :: i < j < |items| ==> !Defines(items[j], key))
                     ==> key in HeadersOf(s) && HeadersOf(s)[key] == Entry(items[i]).1
  {
    var items := Split(s, ',');
    CollectKeys(items, key);
    forall i | 0 <= i < |items| && Defines(items[i], key)
               && (forall j :: i < j < |items| ==> !Defines(items[j], key))
      ensures key in HeadersOf(s) && HeadersOf(s)[key] == Entry(items[i]).1
    {
      CollectLastWins(items, i, key);
    }
  }

  /** Keys and values of `parse_headers(s)` carry no surrounding whitespace. */
  lemma HeadersTrimmed(s: string)
    ensures forall k :: k in HeadersOf(s) ==> Trimmed(k) && Trimmed(HeadersOf(s)[k])
  {
    if s != "" {
      CollectTrimmed(Split(s, ','));
    }
  }

  /** The entry of an item `k=v` whose `k` holds no `=`: the stripped `k`
      and the stripped `v`, so surrounding spaces such as in `" a = 1 "` are
      dropped and the value keeps any further `=`. */
  lemma EntryOfItem(k: string, v: string)
    requires '=' !in k
    ensures IsPair(k + "=" + v) && Entry(k + "=" + v) == (Strip(k), Strip(v))
  {
    SplitAtFirstUnique(k + "=" + v, '=', k, v);
  }

  /** The entry of one `key=value` item whose key holds no `=`, with both
      sides already stripped, is exactly `(key, value)`. */
  lemma EntryOfPair(key: string, value: string)
    requires '=' !in key && Trimmed(key) && Trimmed(value)
    ensures IsPair(key + "=" + value) && Entry(key + "=" + value) == (key, value)
  {
    EntryOfItem(key, value);
    StripTrimmed(key);
    StripTrimmed(value);
  }

  /** Appending one item applies its entry on top of the earlier ones. */
  lemma CollectSnoc(items: seq<string>, item: string)
    ensures Collect(items + [item])
            == if IsPair(item) then Collect(items)[Entry(item).0 := Entry(item).1] else Collect(items)
  {
    assert (items + [item])[..|items|] == items;
  }

  /** Two well-formed items: the second entry is written after the first. */
  lemma TwoPairs(k1: string, v1: string, k2: string, v2: string)
    requires '=' !in k1 && '=' !in k2
    requires ',' !in k1 && ',' !in v1 && ',' !in k2 && ',' !in v2
    requires Trimmed(k1) && Trimmed(v1) && Trimmed(k2) && Trimmed(v2)
    ensures HeadersOf(k1 + "=" + v1 + "," + k2 + "=" + v2) == map[k1 := v1][k2 := v2]
  {
    var p1, p2 := k1 + "=" + v1, k2 + "=" + v2;
    var s := k1 + "=" + v1 + "," + k2 + "=" + v2;
    assert Split(s, ',') == [p1, p2] by {
      assert ',' !in p1 && ',' !in p2;
      assert s == p1 + [','] + p2;
      SplitAfterFirst(p1, p2, ',');
      assert IndexOf(p2, ',') == |p2|;
    }
    EntryOfPair(k1, v1);
    EntryOfPair(k2, v2);
    CollectSnoc([], p1);
    CollectSnoc([p1], p2);
    assert [] + [p1] == [p1];
    assert [p1] + [p2] == [p1, p2];
  }

  /** One-character keys and values used by the examples below carry no whitespace. */
  lemma ExampleWordsTrimmed()
    ensures Trimmed("a") && Trimmed("b") && Trimmed("1") && Trimmed("2")
  {
    assert !IsSpace('a') && !IsSpace('b') && !IsSpace('1') && !IsSpace('2');
  }

  /** `parse_headers("a=1,b=2")` is `{"a": "1", "b": "2"}`. */
  lemma TwoPairsExample(s: string)
    requires s == "a=1,b=2"
    ensures HeadersOf(s) == map["a" := "1", "b" := "2"]
  {
    ExampleWordsTrimmed();
    var k1, v1, k2, v2 := "a", "1", "b", "2";
    assert k1 + "=" + v1 + "," + k2 + "=" + v2 == s;
    TwoPairs(k1, v1, k2, v2);
  }

  /** `parse_headers("k=a=b")` is `{"k": "a=b"}`: only the first `=` splits. */
  lemma ValueKeepsEqualsExample(s: string)
    requires s == "k=a=b"
    ensures HeadersOf(s) == map["k" := "a=b"]
  {
    var k, v := "k", "a=b";
    assert s == k + "=" + v;
    assert Trimmed(k) && Trimmed(v) by {
      assert !IsSpace('k') && !IsSpace('a') && !IsSpace('b');
    }
    assert forall i :: 0 <= i < |s| ==> s[i] != ',';
    SplitJoin([s], ',');
    EntryOfPair(k, v);
    CollectSnoc([], s);
    assert [] + [s] == [s];
  }

  /** `parse_headers("a=1,a=2")` is `{"a": "2"}`: a later duplicate overwrites. */
  lemma DuplicateKeyExample(s: string)
    requires s == "a=1,a=2"
    ensures HeadersOf(s) == map["a" := "2"]
  {
    ExampleWordsTrimmed();
    var k1, v1, k2, v2 := "a", "1", "a", "2";
    assert k1 + "=" + v1 + "," + k2 + "=" + v2 == s;
    TwoPairs(k1, v1, k2, v2);
  }

  /** `parse_headers("bad,noequals")` and `parse_headers("")` are both `{}`. */
  lemma MalformedAndEmptyExamples(s: string)
    requires s == "bad,noequals"
    ensures HeadersOf(s) == map[]
    ensures HeadersOf("") == map[]
  {
    assert forall i :: 0 <= i < |s| ==> s[i] != '=';
    NoEqualsNoHeaders(s);
  }
}
