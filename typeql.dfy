/**
 * What the service writes into TypeQL queries, kept as data: attribute
 * clauses with typed literals, and how a TypeQL string literal's escapes
 * read back. Query text itself is not modelled.
 */
module TypeQL {
  import opened Text

  /** The literal after `has <attr>`. `LString` holds the already-escaped text between the quotes. */
  datatype Lit =
    | LBool(b: bool)
    | LLong(i: int)
    | LDouble(d: real)
    | LString(escaped: string)
      /** A bare lower-cased word, what `str(v).lower()` gives for a value that is not a bool. */
    | LWord(text: string)

  /** One `has <name> <value>` clause. */
  datatype Attr = Attr(name: string, value: Lit)

  function Names(attrs: seq<Attr>): (r: seq<string>)
    ensures |r| == |attrs| && forall i :: 0 <= i < |attrs| ==> r[i] == attrs[i].name
  {
    if attrs == [] then [] else [attrs[0].name] + Names(attrs[1..])
  }

  /**
   * How TypeQL reads the body of a string literal back: a backslash makes the
   * next character literal, except that `\n` stands for a newline.
   */
  function Unescape(s: string): string
    decreases |s|
  {
    if s == [] then []
    else if s[0] == '\\' && |s| >= 2 then
      (if s[1] == 'n' then "\n" else [s[1]]) + Unescape(s[2..])
    else [s[0]] + Unescape(s[1..])
  }

  /** A literal body is well formed when no raw quote, newline or CR appears unescaped. */
  predicate SafeLiteralBody(s: string)
    decreases |s|
  {
    if s == [] then true
    else if s[0] == '\\' then |s| >= 2 && s[1] != '\n' && s[1] != '\r' && SafeLiteralBody(s[2..])
    else s[0] != '"' && s[0] != '\n' && s[0] != '\r' && SafeLiteralBody(s[1..])
  }

  /**
   * The literal closes where it was meant to: every quote in the body is
   * escaped and no backslash is left dangling to escape the closing quote.
   */
  predicate QuotedBody(s: string)
    decreases |s|
  {
    if s == [] then true
    else if s[0] == '\\' then |s| >= 2 && QuotedBody(s[2..])
    else s[0] != '"' && QuotedBody(s[1..])
  }

  lemma {:induction false} UnescapeConcat(a: string, b: string)
    requires SafeLiteralBody(a)
    ensures Unescape(a + b) == Unescape(a) + Unescape(b)
    decreases |a|
  {
    if a != [] {
      if a[0] == '\\' {
        assert (a + b)[2..] == a[2..] + b;
        UnescapeConcat(a[2..], b);
      } else {
        assert (a + b)[1..] == a[1..] + b;
        UnescapeConcat(a[1..], b);
      }
    } else {
      assert a + b == b;
    }
  }

  lemma {:induction false} SafeConcat(a: string, b: string)
    requires SafeLiteralBody(a) && SafeLiteralBody(b)
    ensures SafeLiteralBody(a + b)
    decreases |a|
  {
    if a != [] {
      if a[0] == '\\' {
        assert (a + b)[2..] == a[2..] + b;
        SafeConcat(a[2..], b);
      } else {
        assert (a + b)[1..] == a[1..] + b;
        SafeConcat(a[1..], b);
      }
    } else {
      assert a + b == b;
    }
  }
}
