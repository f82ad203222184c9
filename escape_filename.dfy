/** `escapeFilename`: a video title made safe as a file name by deleting every
    slash, asterisk, backslash, colon, vertical bar, question mark, angle
    bracket and double quote. */
module EscapeFilename {

  /** The characters the replacement pattern deletes. */
  predicate IsForbidden(c: char) {
    c == '/' || c == '*' || c == '\\' || c == ':' || c == '|'
    || c == '?' || c == '<' || c == '>' || c == '"'
  }

  predicate IsClean(s: string) {
    forall i :: 0 <= i < |s| ==> !IsForbidden(s[i])
  }

  function Escape(name: string): (r: string)
    ensures |r| <= |name|
    ensures IsClean(r)
  {
    if name == [] then []
    else (if IsForbidden(name[0]) then [] else [name[0]]) + Escape(name[1..])
  }

  /** Escaping distributes over concatenation: each character is kept or
      dropped on its own, and the kept ones stay in order. */
  lemma {:induction false} EscapeConcat(a: string, b: string)
    ensures Escape(a + b) == Escape(a) + Escape(b)
    decreases |a|
  {
    if a != [] {
      assert (a + b)[1..] == a[1..] + b;
      EscapeConcat(a[1..], b);
    } else {
      assert a + b == b;
    }
  }

  /** A single character is deleted exactly when it is forbidden. */
  lemma EscapeChar(c: char)
    ensures Escape([c]) == if IsForbidden(c) then [] else [c]
  {
    assert [c][1..] == [];
  }

  /** Every character outside the class occurs as often in the result as in
      the input; characters of the class do not occur at all. */
  lemma {:induction false} EscapeCounts(name: string, c: char)
    ensures multiset(Escape(name))[c] == if IsForbidden(c) then 0 else multiset(name)[c]
    decreases |name|
  {
    if name != [] {
      EscapeCounts(name[1..], c);
      assert name == [name[0]] + name[1..];
    } else {
    }
  }

  /** A name with nothing to delete is left as it is. */
  lemma {:induction false} EscapeClean(name: string)
    requires IsClean(name)
    ensures Escape(name) == name
    decreases |name|
  {
    if name != [] {
      EscapeClean(name[1..]);
      assert [name[0]] + name[1..] == name;
    }
  }

  /** Escaping twice is escaping once. */
  lemma EscapeIdempotent(name: string)
    ensures Escape(Escape(name)) == Escape(name)
  {
    EscapeClean(Escape(name));
  }

  /** The length is kept exactly when there was nothing to delete. */
  lemma {:induction false} EscapeLength(name: string)
    ensures |Escape(name)| == |name| <==> IsClean(name)
    decreases |name|
  {
    if name != [] {
      EscapeLength(name[1..]);
      if IsForbidden(name[0]) {
        assert |Escape(name)| < |name|;
      } else {
        assert IsClean(name) <==> IsClean(name[1..]) by {
          if IsClean(name[1..]) {
            forall i | 0 <= i < |name| ensures !IsForbidden(name[i]) {
              if i > 0 { assert name[i] == name[1..][i - 1]; }
            }
          }
        }
      }
    }
  }
}
