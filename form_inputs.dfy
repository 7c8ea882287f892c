/** The inputs of a questionnaire form and String.prototype.trim, which both
    submit handlers use to decide whether a field was filled in. */
module FormInputs {

  /** An <input> element: its type attribute and its current value. */
  datatype Input = Input(kind: string, value: string)

  /** The characters trim removes: the ECMAScript WhiteSpace and
      LineTerminator code points. */
  predicate IsSpace(c: char)
  {
    c == '\t' || c == '\n' || c == '\U{000B}' || c == '\U{000C}' || c == '\r' || c == ' '
    || c == '\U{00A0}' || c == '\U{1680}' || ('\U{2000}' <= c <= '\U{200A}')
    || c == '\U{2028}' || c == '\U{2029}' || c == '\U{202F}' || c == '\U{205F}'
    || c == '\U{3000}' || c == '\U{FEFF}'
  }

  /** The value holds at least one character that is not white space. */
  ghost predicate Filled(s: string)
  {
    exists k | 0 <= k < |s| :: !IsSpace(s[k])
  }

  /** The leading white space removed: a suffix of s that starts with a
      non-space, and everything before it is white space. */
  function TrimStart(s: string): (r: string)
    ensures |r| <= |s| && r == s[|s| - |r|..]
    ensures r == [] || !IsSpace(r[0])
    ensures forall k | 0 <= k < |s| - |r| :: IsSpace(s[k])
  {
    if s != [] && IsSpace(s[0]) then TrimStart(s[1..]) else s
  }

  /** The trailing white space removed: a prefix of s that ends with a
      non-space, and everything after it is white space. */
  function TrimEnd(s: string): (r: string)
    ensures |r| <= |s| && r == s[..|r|]
    ensures r == [] || !IsSpace(r[|r| - 1])
    ensures forall k | |r| <= k < |s| :: IsSpace(s[k])
  {
    if s != [] && IsSpace(s[|s| - 1]) then TrimEnd(s[..|s| - 1]) else s
  }

  /** String.prototype.trim: a slice of s with no white space at either
      end, empty exactly when s holds nothing but white space. */
  function Trim(s: string): (r: string)
    ensures |r| <= |s|
    ensures r == [] || (!IsSpace(r[0]) && !IsSpace(r[|r| - 1]))
    ensures r == [] <==> !Filled(s)
  {
    var t := TrimStart(s);
    var r := TrimEnd(t);
    assert r == [] ==> !Filled(s) by {
      if r == [] {
        assert t == [];
      }
    }
    assert r != [] ==> Filled(s) by {
      if r != [] {
        assert t[0] == r[0];
        assert !IsSpace(s[|s| - |t|]);
      }
    }
    r
  }
}
