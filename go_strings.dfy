/** The parts of Go's `strings` and `fmt` packages that the core relies on,
    restricted to a one-character separator and to the `%s` verb. */
module GoStrings {

  /** Number of occurrences of `c` in `s` (Go's `strings.Count` for one character). */
  function Count(s: string, c: char): nat
  {
    if s == [] then 0 else (if s[0] == c then 1 else 0) + Count(s[1..], c)
  }

  /** A character occurs nowhere exactly when its count is zero. */
  lemma {:induction false} CountZero(s: string, c: char)
    ensures Count(s, c) == 0 <==> c !in s
  {
    if s != [] {
      CountZero(s[1..], c);
      assert s == [s[0]] + s[1..];
    }
  }

  /** Go's `strings.Split(s, sep)` for a one-character `sep`: the pieces of `s`
      between the occurrences of `sep`. Splitting "" yields [""], never []. */
  function Split(s: string, sep: char): (parts: seq<string>)
    ensures |parts| == Count(s, sep) + 1
    ensures forall i :: 0 <= i < |parts| ==> sep !in parts[i]
    ensures forall i, c :: 0 <= i < |parts| && c in parts[i] ==> c in s
  {
    if s == [] then [""]
    else
      assert forall c :: c in s[1..] ==> c in s;
      if s[0] == sep then [""] + Split(s[1..], sep)
      else
        var rest := Split(s[1..], sep);
        [[s[0]] + rest[0]] + rest[1..]
  }

  /** Go's `strings.Join(parts, sep)` for a one-character `sep`. */
  function Join(parts: seq<string>, sep: char): string
  {
    if parts == [] then ""
    else if |parts| == 1 then parts[0]
    else parts[0] + [sep] + Join(parts[1..], sep)
  }

  /** Joining the pieces of a split gives back the original string. */
  lemma {:induction false} JoinSplit(s: string, sep: char)
    ensures Join(Split(s, sep), sep) == s
  {
    if s != [] {
      JoinSplit(s[1..], sep);
      var rest := Split(s[1..], sep);
      if s[0] == sep {
        assert Split(s, sep) == [""] + rest;
        assert s == [sep] + s[1..];
      } else {
        var parts := [[s[0]] + rest[0]] + rest[1..];
        assert Split(s, sep) == parts;
        if |rest| == 1 {
          assert rest == [rest[0]];
        } else {
          assert parts[1..] == rest[1..];
          assert Join(rest, sep) == rest[0] + [sep] + Join(rest[1..], sep);
        }
        assert s == [s[0]] + s[1..];
      }
    }
  }

  /** A prefix free of the separator merges into the first piece. */
  lemma {:induction false} SplitPrefix(p: string, t: string, sep: char)
    requires sep !in p
    ensures Split(p + t, sep) == [p + Split(t, sep)[0]] + Split(t, sep)[1..]
  {
    if p != [] {
      SplitPrefix(p[1..], t, sep);
      assert (p + t)[0] == p[0];
      assert (p + t)[1..] == p[1..] + t;
      assert [p[0]] + (p[1..] + Split(t, sep)[0]) == p + Split(t, sep)[0];
    } else {
      var parts := Split(t, sep);
      assert p + t == t;
      assert p + parts[0] == parts[0];
      assert parts == [parts[0]] + parts[1..];
    }
  }

  /** Splitting a join of separator-free pieces gives back exactly those pieces. */
  lemma {:induction false} SplitJoin(parts: seq<string>, sep: char)
    requires |parts| >= 1
    requires forall i :: 0 <= i < |parts| ==> sep !in parts[i]
    ensures Split(Join(parts, sep), sep) == parts
  {
    if |parts| == 1 {
      SplitPrefix(parts[0], "", sep);
      assert parts[0] + "" == parts[0];
      assert parts == [parts[0]];
    } else {
      var tail := Join(parts[1..], sep);
      SplitJoin(parts[1..], sep);
      assert Join(parts, sep) == parts[0] + ([sep] + tail);
      SplitPrefix(parts[0], [sep] + tail, sep);
      assert ([sep] + tail)[1..] == tail;
      assert Split([sep] + tail, sep) == [""] + parts[1..];
      assert parts[0] + "" == parts[0];
      assert parts == [parts[0]] + parts[1..];
    }
  }

  /** Number of `%s` verbs in a format string, scanning left to right. */
  function Verbs(format: string): nat
  {
    if |format| >= 2 && format[0] == '%' && format[1] == 's' then 1 + Verbs(format[2..])
    else if format == [] then 0
    else Verbs(format[1..])
  }

  /** Go's `fmt.Sprintf` for a format whose only verb is `%s`, called with one
      string argument per verb: each `%s` is replaced by the next argument and
      every other character is copied. */
  function Sprintf(format: string, args: seq<string>): string
    requires Verbs(format) == |args|
  {
    if |format| >= 2 && format[0] == '%' && format[1] == 's' then args[0] + Sprintf(format[2..], args[1..])
    else if format == [] then ""
    else [format[0]] + Sprintf(format[1..], args)
  }
}
