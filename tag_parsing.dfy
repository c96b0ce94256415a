/** The default-tag parser of main.go: `parseTags` turns a "k=v,k=v" string
    into a tag map, or fails on the first entry that is not a key=value pair. */
module TagParsing {
  import opened Wrappers
  import opened GoStrings

  /** The error `parseTags` returns; `Message` is the text it is formatted with. */
  datatype TagError = InvalidTag(tag: string) {
    function Message(): string
    {
      "invalid tag '" + tag + "', expected key=value pair"
    }
  }

  /** The check of main.go:113: splitting on '=' gives exactly two parts. */
  predicate IsKeyValue(tag: string)
  {
    |Split(tag, '=')| == 2
  }

  /** The key of an entry: the text before its first '='. */
  function Key(tag: string): string
  {
    Split(tag, '=')[0]
  }

  /** The value of a key=value entry: the text after its '='. */
  function Value(tag: string): string
    requires IsKeyValue(tag)
  {
    Split(tag, '=')[1]
  }

  /** The loop of main.go:111-121 over the remaining `segments`, with `result` the
      map filled so far. */
  function ParseSegments(segments: seq<string>, result: map<string, string>): Result<map<string, string>, TagError>
  {
    if segments == [] then Success(result)
    else
      var keyValue := Split(segments[0], '=');
      if |keyValue| != 2 then Failure(InvalidTag(segments[0]))
      else ParseSegments(segments[1..], result[keyValue[0] := keyValue[1]])
  }

  /** What `parseTags(tags)` returns. */
  function ParsedTags(tags: string): Result<map<string, string>, TagError>
  {
    ParseSegments(Split(tags, ','), map[])
  }

  /** `parseTags` (main.go:109-124): split on ',', split each entry on '=',
      reject the first entry that does not give two parts, else record the pair. */
  method ParseTags(tags: string) returns (r: Result<map<string, string>, TagError>)
    ensures r == ParsedTags(tags)
  {
    var result: map<string, string> := map[];
    var segments := Split(tags, ',');
    var i := 0;
    while i < |segments|
      invariant 0 <= i <= |segments|
      invariant ParseSegments(segments[i..], result) == ParsedTags(tags)
    {
      var tag := segments[i];
      var keyValue := Split(tag, '=');
      if |keyValue| != 2 {
        return Failure(InvalidTag(tag));
      }
      assert segments[i..][1..] == segments[i + 1..];
      var key := keyValue[0];
      var value := keyValue[1];
      result := result[key := value];
      i := i + 1;
    }
    return Success(result);
  }

  /** The keys the entries of `segments` write. */
  function KeysOf(segments: seq<string>): set<string>
  {
    set i | 0 <= i < |segments| :: Key(segments[i])
  }

  /** Entry `i` is the last one of `segments` that writes key `k`. */
  ghost predicate LastWrite(segments: seq<string>, k: string, i: int)
  {
    && 0 <= i < |segments|
    && Key(segments[i]) == k
    && forall j :: i < j < |segments| ==> Key(segments[j]) != k
  }

  /** The keys of a non-empty list: the first entry's key and those of the rest. */
  lemma KeysOfCons(segments: seq<string>)
    requires segments != []
    ensures KeysOf(segments) == {Key(segments[0])} + KeysOf(segments[1..])
  {
    forall k | k in KeysOf(segments) ensures k in {Key(segments[0])} + KeysOf(segments[1..]) {
      var i :| 0 <= i < |segments| && Key(segments[i]) == k;
      if i > 0 {
        assert Key(segments[1..][i - 1]) == k;
      }
    }
    forall k | k in KeysOf(segments[1..]) ensures k in KeysOf(segments) {
      var i :| 0 <= i < |segments[1..]| && Key(segments[1..][i]) == k;
      assert Key(segments[i + 1]) == k;
    }
  }

  /** The loop stops with an error exactly when some entry does not contain exactly
      one '=', and the error names the first such entry. */
  lemma {:induction false} SegmentsFailure(segments: seq<string>, result: map<string, string>)
    ensures ParseSegments(segments, result).Failure? <==>
              exists i :: 0 <= i < |segments| && Count(segments[i], '=') != 1
    ensures ParseSegments(segments, result).Failure? ==>
              exists i :: && 0 <= i < |segments|
                          && Count(segments[i], '=') != 1
                          && (forall j :: 0 <= j < i ==> Count(segments[j], '=') == 1)
                          && ParseSegments(segments, result).error == InvalidTag(segments[i])
  {
    if segments != [] {
      var keyValue := Split(segments[0], '=');
      if |keyValue| == 2 {
        var rest := segments[1..];
        SegmentsFailure(rest, result[keyValue[0] := keyValue[1]]);
        if exists i :: 0 <= i < |segments| && Count(segments[i], '=') != 1 {
          var i :| 0 <= i < |segments| && Count(segments[i], '=') != 1;
          assert i > 0 && Count(rest[i - 1], '=') != 1;
        }
        if ParseSegments(segments, result).Failure? {
          var i :| && 0 <= i < |rest|
                   && Count(rest[i], '=') != 1
                   && (forall j :: 0 <= j < i ==> Count(rest[j], '=') == 1)
                   && ParseSegments(rest, result[keyValue[0] := keyValue[1]]).error == InvalidTag(rest[i]);
          assert Count(segments[i + 1], '=') != 1;
          forall j | 0 <= j < i + 1 ensures Count(segments[j], '=') == 1 {
            if j > 0 { assert segments[j] == rest[j - 1]; }
          }
        }
      }
    }
  }

  /** On success every entry was a key=value pair; the keys are those written by
      the entries (besides those already in `result`), and each written key holds
      the value of the last entry that writes it. */
  lemma {:induction false} SegmentsSuccess(segments: seq<string>, result: map<string, string>, m: map<string, string>)
    requires ParseSegments(segments, result) == Success(m)
    ensures forall i :: 0 <= i < |segments| ==> IsKeyValue(segments[i])
    ensures m.Keys == result.Keys + KeysOf(segments)
    ensures forall k :: k in m && k !in KeysOf(segments) ==> m[k] == result[k]
    ensures forall k :: k in KeysOf(segments) ==>
              exists i :: LastWrite(segments, k, i) && IsKeyValue(segments[i]) && m[k] == Value(segments[i])
  {
    if segments != [] {
      var rest := segments[1..];
      var k0, v0 := Key(segments[0]), Value(segments[0]);
      var next := result[k0 := v0];
      SegmentsSuccess(rest, next, m);
      KeysOfCons(segments);
      forall i | 0 <= i < |segments| ensures IsKeyValue(segments[i]) {
        if i > 0 { assert segments[i] == rest[i - 1]; }
      }
      forall k | k in KeysOf(segments)
        ensures exists i :: LastWrite(segments, k, i) && IsKeyValue(segments[i]) && m[k] == Value(segments[i])
      {
        if k in KeysOf(rest) {
          var i :| LastWrite(rest, k, i) && IsKeyValue(rest[i]) && m[k] == Value(rest[i]);
          forall j | i + 1 < j < |segments| ensures Key(segments[j]) != k {
            assert segments[j] == rest[j - 1];
          }
          assert LastWrite(segments, k, i + 1);
        } else {
          assert k == k0;
          forall j | 0 < j < |segments| ensures Key(segments[j]) != k {
            assert Key(rest[j - 1]) in KeysOf(rest);
          }
          assert LastWrite(segments, k, 0);
        }
      }
    }
  }

  /** `parseTags` fails exactly when some ','-separated entry does not contain
      exactly one '='; the error names the first such entry, and no map is returned. */
  lemma ParseFailure(tags: string)
    ensures ParsedTags(tags).Failure? <==>
              exists i :: 0 <= i < |Split(tags, ',')| && Count(Split(tags, ',')[i], '=') != 1
    ensures ParsedTags(tags).Failure? ==>
              exists i :: && 0 <= i < |Split(tags, ',')|
                          && Count(Split(tags, ',')[i], '=') != 1
                          && (forall j :: 0 <= j < i ==> Count(Split(tags, ',')[j], '=') == 1)
                          && ParsedTags(tags) == Failure(InvalidTag(Split(tags, ',')[i]))
  {
    SegmentsFailure(Split(tags, ','), map[]);
  }

  /** A successful parse maps exactly the keys of the entries, each to the value of
      the last entry with that key, and no key or value contains ',' or '='. */
  lemma ParseSuccess(tags: string, m: map<string, string>)
    requires ParsedTags(tags) == Success(m)
    ensures m.Keys == KeysOf(Split(tags, ','))
    ensures forall k :: k in m ==>
              exists i :: && LastWrite(Split(tags, ','), k, i)
                          && IsKeyValue(Split(tags, ',')[i])
                          && m[k] == Value(Split(tags, ',')[i])
    ensures forall k :: k in m ==> ',' !in k && '=' !in k && ',' !in m[k] && '=' !in m[k]
  {
    var segments := Split(tags, ',');
    SegmentsSuccess(segments, map[], m);
    forall k | k in m ensures ',' !in k && '=' !in k && ',' !in m[k] && '=' !in m[k] {
      var i :| LastWrite(segments, k, i) && IsKeyValue(segments[i]) && m[k] == Value(segments[i]);
      var keyValue := Split(segments[i], '=');
      assert ',' !in segments[i];
      assert k == keyValue[0] && m[k] == keyValue[1];
    }
  }

  /** The empty string is rejected: it splits into the single entry "", which has
      no '='. */
  lemma ParseEmpty()
    ensures ParsedTags("") == Failure(InvalidTag(""))
  {
    assert Split("", ',') == [""];
    assert Split("", '=') == [""];
  }

  /** "a=1,b=2" parses to the map a: 1, b: 2. */
  lemma ParseExample()
    ensures ParsedTags("a=1,b=2") == Success(map["a" := "1", "b" := "2"])
  {
    SplitExampleSegments();
    SplitExamplePairs();
    var segments := ["a=1", "b=2"];
    assert ParseSegments(segments[1..][1..], map["a" := "1", "b" := "2"]) == Success(map["a" := "1", "b" := "2"]);
    assert ParseSegments(segments[1..], map["a" := "1"]) == Success(map["a" := "1", "b" := "2"]);
  }

  /** The segments of "a=1,b=2". */
  lemma SplitExampleSegments()
    ensures Split("a=1,b=2", ',') == ["a=1", "b=2"]
  {
    SplitLiteral("a=1,b=2", ',', ["a=1", "b=2"]);
  }

  /** The key and value of each segment of "a=1,b=2". */
  lemma SplitExamplePairs()
    ensures Split("a=1", '=') == ["a", "1"]
    ensures Split("b=2", '=') == ["b", "2"]
  {
    SplitLiteral("a=1", '=', ["a", "1"]);
    SplitLiteral("b=2", '=', ["b", "2"]);
  }

  /** A string that joins separator-free parts splits back into them. */
  lemma SplitLiteral(s: string, sep: char, parts: seq<string>)
    requires |parts| >= 1 && (forall i :: 0 <= i < |parts| ==> sep !in parts[i])
    requires Join(parts, sep) == s
    ensures Split(s, sep) == parts
  {
    SplitJoin(parts, sep);
  }

  /** Entries that contain neither separator. */
  predicate CleanEntries(entries: seq<(string, string)>)
  {
    forall i :: 0 <= i < |entries| ==>
      ',' !in entries[i].0 && '=' !in entries[i].0 && ',' !in entries[i].1 && '=' !in entries[i].1
  }

  /** Each entry written out as "key=value". */
  function Pairs(entries: seq<(string, string)>): (tags: seq<string>)
    ensures |tags| == |entries|
    ensures forall i :: 0 <= i < |entries| ==> tags[i] == entries[i].0 + "=" + entries[i].1
  {
    if entries == [] then [] else [entries[0].0 + "=" + entries[0].1] + Pairs(entries[1..])
  }

  /** The tag string "k1=v1,k2=v2,..." for a list of entries. */
  function Render(entries: seq<(string, string)>): string
  {
    Join(Pairs(entries), ',')
  }

  /** Writing the entries into `result` in order, later ones overwriting earlier ones. */
  function Store(entries: seq<(string, string)>, result: map<string, string>): map<string, string>
  {
    if entries == [] then result else Store(entries[1..], result[entries[0].0 := entries[0].1])
  }

  /** A key=value entry free of '=' splits back into its key and value. */
  lemma SplitPair(k: string, v: string)
    requires '=' !in k && '=' !in v
    ensures Split(k + "=" + v, '=') == [k, v]
  {
    SplitJoin([k, v], '=');
    assert Join([k, v], '=') == k + "=" + v;
  }

  /** Parsing the rendered clean entries stores them one after the other. */
  lemma {:induction false} ParsePairs(entries: seq<(string, string)>, result: map<string, string>)
    requires CleanEntries(entries)
    ensures ParseSegments(Pairs(entries), result) == Success(Store(entries, result))
  {
    if entries != [] {
      var tags := Pairs(entries);
      SplitPair(entries[0].0, entries[0].1);
      assert tags[1..] == Pairs(entries[1..]);
      ParsePairs(entries[1..], result[entries[0].0 := entries[0].1]);
    }
  }

  /** Round trip over any non-empty list of clean entries: parsing the rendered
      string stores the entries with the last write winning. */
  lemma RoundTripEntries(entries: seq<(string, string)>)
    requires entries != []
    requires CleanEntries(entries)
    ensures ParsedTags(Render(entries)) == Success(Store(entries, map[]))
  {
    var tags := Pairs(entries);
    forall i | 0 <= i < |tags| ensures ',' !in tags[i] {
      assert tags[i] == entries[i].0 + "=" + entries[i].1;
    }
    SplitJoin(tags, ',');
    ParsePairs(entries, map[]);
  }

  /** `entries` lists every binding of `m` exactly once. */
  ghost predicate Enumerates(entries: seq<(string, string)>, m: map<string, string>)
  {
    && (forall i :: 0 <= i < |entries| ==> entries[i].0 in m && m[entries[i].0] == entries[i].1)
    && (forall k :: k in m ==> exists i :: 0 <= i < |entries| && entries[i].0 == k)
    && (forall i, j :: 0 <= i < j < |entries| ==> entries[i].0 != entries[j].0)
  }

  /** Dropping the first binding from an enumeration enumerates the rest of the map. */
  lemma EnumeratesTail(entries: seq<(string, string)>, m: map<string, string>)
    requires entries != []
    requires Enumerates(entries, m)
    ensures Enumerates(entries[1..], m - {entries[0].0})
  {
    var rest, m' := entries[1..], m - {entries[0].0};
    forall k' | k' in m' ensures exists i :: 0 <= i < |rest| && rest[i].0 == k' {
      var i :| 0 <= i < |entries| && entries[i].0 == k';
      assert rest[i - 1].0 == k';
    }
    forall i | 0 <= i < |rest| ensures rest[i].0 in m' && m'[rest[i].0] == rest[i].1 {
      assert entries[i + 1] == rest[i];
      assert entries[0].0 != entries[i + 1].0;
    }
    forall i, j | 0 <= i < j < |rest| ensures rest[i].0 != rest[j].0 {
      assert entries[i + 1] == rest[i] && entries[j + 1] == rest[j];
    }
  }

  /** Storing an enumeration of `m` into `result` lays `m` over `result`,
      whatever the order of the entries. */
  lemma {:induction false} StoreEnumeration(entries: seq<(string, string)>, m: map<string, string>, result: map<string, string>)
    requires Enumerates(entries, m)
    ensures Store(entries, result) == result + m
  {
    if entries == [] {
      assert m == map[];
    } else {
      var k := entries[0].0;
      EnumeratesTail(entries, m);
      StoreEnumeration(entries[1..], m - {k}, result[k := m[k]]);
      assert result[k := m[k]] + (m - {k}) == result + m;
    }
  }

  /** Round trip over a map: for a non-empty map whose keys and values contain no
      ',' and no '=', joining its bindings as k=v with ',' in any order and parsing
      the result gives back the map. */
  lemma RoundTrip(m: map<string, string>, entries: seq<(string, string)>)
    requires m != map[]
    requires forall k :: k in m ==> ',' !in k && '=' !in k && ',' !in m[k] && '=' !in m[k]
    requires Enumerates(entries, m)
    ensures ParsedTags(Render(entries)) == Success(m)
  {
    EnumeratedClean(m, entries);
    RoundTripEntries(entries);
    StoreEnumeration(entries, m, map[]);
    assert map[] + m == m;
  }

  /** An enumeration of a non-empty map free of ',' and '=' is a non-empty list
      of clean entries. */
  lemma EnumeratedClean(m: map<string, string>, entries: seq<(string, string)>)
    requires m != map[]
    requires forall k :: k in m ==> ',' !in k && '=' !in k && ',' !in m[k] && '=' !in m[k]
    requires Enumerates(entries, m)
    ensures entries != [] && CleanEntries(entries)
  {
    var k :| k in m;
    var i :| 0 <= i < |entries| && entries[i].0 == k;
    forall i | 0 <= i < |entries|
      ensures ',' !in entries[i].0 && '=' !in entries[i].0 && ',' !in entries[i].1 && '=' !in entries[i].1
    {
      assert entries[i].0 in m && m[entries[i].0] == entries[i].1;
    }
  }

  /** An entry without '=' is rejected and named in the error. */
  lemma ParseMissingValue()
    ensures ParsedTags("a=1,b") == Failure(InvalidTag("b"))
  {
    SplitJoin(["a=1", "b"], ',');
    assert Join(["a=1", "b"], ',') == "a=1,b";
    SplitPair("a", "1");
    SplitJoin(["b"], '=');
    assert Join(["b"], '=') == "b";
  }

  /** An entry with two '=' is rejected as a whole. */
  lemma ParseDoubleEquals()
    ensures ParsedTags("a=1=2") == Failure(InvalidTag("a=1=2"))
  {
    SplitJoin(["a=1=2"], ',');
    assert Join(["a=1=2"], ',') == "a=1=2";
    SplitJoin(["a", "1", "2"], '=');
    assert Join(["a", "1", "2"], '=') == "a=1=2";
  }
}
