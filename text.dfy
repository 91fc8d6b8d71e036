/** The two string built-ins the run pipeline applies to the requirements
    text: `String.prototype.trim` and `String.prototype.split('\n')`, with
    `Array.prototype.join('\n')` as the inverse of the split. */
module JsText {

  /** A code point that `trim` strips: the ECMAScript WhiteSpace set (tab,
      vertical tab, form feed, space, no-break space, byte-order mark and the
      other Zs separators) and the LineTerminator set (line feed, carriage
      return, line separator, paragraph separator). */
  predicate IsTrimmable(c: char) {
    var n := c as int;
    n == 0x09 || n == 0x0A || n == 0x0B || n == 0x0C || n == 0x0D
    || n == 0x20 || n == 0xA0 || n == 0x1680 || (0x2000 <= n <= 0x200A)
    || n == 0x2028 || n == 0x2029 || n == 0x202F || n == 0x205F
    || n == 0x3000 || n == 0xFEFF
  }

  predicate AllTrimmable(s: string) {
    forall k :: 0 <= k < |s| ==> IsTrimmable(s[k])
  }

  /** Drops the leading trimmable characters: the result is a suffix of `s`,
      everything dropped is trimmable and the result does not start with a
      trimmable character. */
  function TrimStart(s: string): (r: string)
    ensures |r| <= |s| && r == s[|s| - |r|..]
    ensures AllTrimmable(s[..|s| - |r|])
    ensures r == [] || !IsTrimmable(r[0])
  {
    if s != [] && IsTrimmable(s[0]) then TrimStart(s[1..]) else s
  }

  /** Drops the trailing trimmable characters: the result is a prefix of `s`,
      everything dropped is trimmable and the result does not end with a
      trimmable character. */
  function TrimEnd(s: string): (r: string)
    ensures |r| <= |s| && r == s[..|r|]
    ensures AllTrimmable(s[|r|..])
    ensures r == [] || !IsTrimmable(r[|r| - 1])
  {
    if s != [] && IsTrimmable(s[|s| - 1]) then TrimEnd(s[..|s| - 1]) else s
  }

  /** `s.trim()`: the result neither starts nor ends with a trimmable
      character, and it is empty exactly when `s` is made of trimmable
      characters only (so an empty result is what makes the text falsy). */
  function Trim(s: string): (r: string)
    ensures r == [] || (!IsTrimmable(r[0]) && !IsTrimmable(r[|r| - 1]))
    ensures r == [] <==> AllTrimmable(s)
  {
    var t := TrimStart(s);
    var r := TrimEnd(t);
    assert r == [] ==> AllTrimmable(s) by {
      if r == [] {
        assert s == s[..|s| - |t|] + t;
        assert t == t[0..];
      }
    }
    assert AllTrimmable(s) ==> t == [];
    r
  }

  /** Trim cuts a contiguous piece out of `s` and only trimmable characters
      lie on either side of it. */
  lemma TrimIsInfix(s: string)
    ensures exists i :: TrimmedAt(s, Trim(s), i)
  {
    var t := TrimStart(s);
    var r := TrimEnd(t);
    var i := |s| - |t|;
    assert t == s[i..];
    assert r == s[i..i + |r|];
    assert s[i + |r|..] == t[|r|..];
    assert Trim(s) == r;
    assert TrimmedAt(s, r, i);
  }

  /** `r` stands at offset `i` of `s` with only trimmable characters around it. */
  predicate TrimmedAt(s: string, r: string, i: int) {
    0 <= i <= |s| - |r| && r == s[i..i + |r|]
    && AllTrimmable(s[..i]) && AllTrimmable(s[i + |r|..])
  }

  /** Text that neither starts nor ends with a trimmable character is left
      as it is. */
  lemma TrimKeepsSolidEnds(s: string)
    requires s != [] && !IsTrimmable(s[0]) && !IsTrimmable(s[|s| - 1])
    ensures Trim(s) == s
  {
    assert TrimStart(s) == s;
    assert TrimEnd(s) == s;
  }

  /** `s.split('\n')`: the pieces between line feeds, in order. There is
      always at least one piece and no piece holds a line feed; empty pieces
      (blank lines) are kept. */
  function Split(s: string): (r: seq<string>)
    ensures |r| >= 1
    ensures forall i :: 0 <= i < |r| ==> '\n' !in r[i]
  {
    if s == [] then [[]]
    else
      var rest := Split(s[1..]);
      if s[0] == '\n' then [[]] + rest
      else [[s[0]] + rest[0]] + rest[1..]
  }

  /** `lines.join('\n')`. */
  function Join(lines: seq<string>): string {
    if lines == [] then []
    else if |lines| == 1 then lines[0]
    else lines[0] + "\n" + Join(lines[1..])
  }

  /** Joining the pieces of a split gives back the text: nothing is dropped,
      reordered or filtered. */
  lemma {:induction false} JoinSplit(s: string)
    ensures Join(Split(s)) == s
  {
    if s != [] {
      var rest := Split(s[1..]);
      JoinSplit(s[1..]);
      if s[0] == '\n' {
        assert Split(s) == [[]] + rest;
        assert s == [] + "\n" + Join(rest);
      } else {
        assert Split(s)[1..] == rest[1..];
        if |rest| == 1 {
          assert s == [s[0]] + rest[0];
        } else {
          assert Join(rest) == rest[0] + "\n" + Join(rest[1..]);
          assert s == ([s[0]] + rest[0]) + "\n" + Join(rest[1..]);
        }
      }
    }
  }

  /** Splitting the join of line-feed-free pieces gives back the pieces. */
  lemma {:induction false} SplitJoin(lines: seq<string>)
    requires |lines| >= 1
    requires forall i :: 0 <= i < |lines| ==> '\n' !in lines[i]
    ensures Split(Join(lines)) == lines
  {
    if |lines| == 1 {
      SplitLine(lines[0]);
    } else {
      SplitJoin(lines[1..]);
      SplitPrefix(lines[0], Join(lines[1..]));
      assert [lines[0]] + lines[1..] == lines;
    }
  }

  /** A line-feed-free text is a single piece. */
  lemma {:induction false} SplitLine(x: string)
    requires '\n' !in x
    ensures Split(x) == [x]
  {
    if x != [] {
      assert '\n' !in x[1..] by {
        forall k | 0 <= k < |x[1..]| ensures x[1..][k] != '\n' {
          assert x[1..][k] == x[k + 1];
        }
      }
      SplitLine(x[1..]);
      assert [x[0]] + x[1..] == x;
    }
  }

  /** A line-feed-free head followed by a line feed becomes the first piece. */
  lemma {:induction false} SplitPrefix(x: string, y: string)
    requires '\n' !in x
    ensures Split(x + "\n" + y) == [x] + Split(y)
  {
    if x == [] {
      assert x + "\n" + y == "\n" + y;
      assert ("\n" + y)[1..] == y;
    } else {
      assert (x + "\n" + y)[1..] == x[1..] + "\n" + y;
      assert '\n' !in x[1..] by {
        forall k | 0 <= k < |x[1..]| ensures x[1..][k] != '\n' {
          assert x[1..][k] == x[k + 1];
        }
      }
      SplitPrefix(x[1..], y);
      assert [x[0]] + x[1..] == x;
    }
  }
}
