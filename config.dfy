/**
 * The two derived settings: the CORS origin list parsed from its
 * comma-separated environment value, and the graph database address
 * reduced to host:port.
 */
module Config {
  import opened Text

  /** `cors_origins_list`: one origin per comma-separated piece, stripped. */
  function CorsOriginsList(corsOrigins: string): (origins: seq<string>)
    ensures origins != []
    ensures forall i :: 0 <= i < |origins| ==> ',' !in origins[i]
  {
    var pieces := Split(corsOrigins, ',');
    seq(|pieces|, i requires 0 <= i < |pieces| => Strip(pieces[i]))
  }

  /** Stripping twice strips nothing more. */
  lemma StripIdempotent(s: string)
    ensures Strip(Strip(s)) == Strip(s)
  {
    var r := Strip(s);
    if r != [] {
      assert LStrip(r) == r;
      assert RStrip(r) == r;
    }
  }

  /**
   * There is one origin per comma plus one, none holds a comma or
   * surrounding whitespace, and a value with no comma is a single origin.
   */
  lemma CorsOriginsShape(corsOrigins: string)
    ensures var origins := CorsOriginsList(corsOrigins);
      |origins| == CountChar(corsOrigins, ',') + 1 &&
      (forall i :: 0 <= i < |origins| ==> ',' !in origins[i] && Strip(origins[i]) == origins[i]) &&
      (',' !in corsOrigins ==> origins == [Strip(corsOrigins)])
  {
    SplitJoin(corsOrigins, ',');
    var pieces := Split(corsOrigins, ',');
    var origins := CorsOriginsList(corsOrigins);
    forall i | 0 <= i < |origins| ensures ',' !in origins[i] && Strip(origins[i]) == origins[i] {
      StripIdempotent(pieces[i]);
      StripWithin(pieces[i], ',');
    }
  }

  /** A character missing from a string is missing from its stripped form. */
  lemma StripWithin(s: string, c: char)
    requires c !in s
    ensures c !in Strip(s)
  {
    var l := LStrip(s);
    assert forall k :: 0 <= k < |l| ==> l[k] == s[|s| - |l| + k];
    var r := RStrip(l);
    assert forall k :: 0 <= k < |r| ==> r[k] == l[k];
  }

  // ---------------------------------------------------------------------
  // Database address
  // ---------------------------------------------------------------------

  /** The scheme prefixes removed, in the order they are tried. */
  const Prefixes: seq<string> := ["https://", "http://"]

  function DropPrefix(s: string, p: string): string
  {
    if StartsWith(s, p) then s[|p|..] else s
  }

  /** The address after the first `n` prefixes have been tried. */
  function SchemeStripped(address: string, n: nat): string
    requires n <= |Prefixes|
  {
    if n == 0 then address else DropPrefix(SchemeStripped(address, n - 1), Prefixes[n - 1])
  }

  /** The normalised address: scheme prefixes dropped, then everything from the first "/" cut. */
  function Normalized(address: string): string
  {
    Split(SchemeStripped(address, |Prefixes|), '/')[0]
  }

  /** `normalized_typedb_address`. */
  method NormalizedTypedbAddress(typedbAddress: string) returns (addr: string)
    ensures addr == Normalized(typedbAddress)
  {
    addr := typedbAddress;
    for i := 0 to |Prefixes|
      invariant addr == SchemeStripped(typedbAddress, i)
    {
      var prefix := Prefixes[i];
      if StartsWith(addr, prefix) {
        addr := addr[|prefix|..];
      }
    }
    addr := Split(addr, '/')[0];
  }

  /** The first piece of a split is the text before the first separator, or all of it. */
  lemma SplitHead(s: string, sep: char)
    ensures sep !in s ==> Split(s, sep)[0] == s
    ensures sep in s ==> Split(s, sep)[0] == s[..IndexOfChar(s, sep)]
  {
  }

  /**
   * The normalised address holds no "/", is what remains of the address
   * without its scheme up to the first "/", leaves a plain host:port
   * alone, and normalising again changes nothing.
   */
  lemma NormalizedShape(address: string)
    ensures var n := Normalized(address);
      var bare := SchemeStripped(address, |Prefixes|);
      '/' !in n &&
      StartsWith(bare, n) &&
      ('/' in bare ==> bare[|n|] == '/') &&
      ('/' !in address ==> n == address) &&
      Normalized(n) == n
  {
    var bare := SchemeStripped(address, |Prefixes|);
    var n := Normalized(address);
    SplitHead(bare, '/');
    NoSlashFixed(n);
    if '/' !in address {
      NoSlashFixed(address);
    }
  }

  /** Text without a "/" carries no scheme prefix, so normalisation leaves it as it is. */
  lemma NoSlashFixed(s: string)
    requires '/' !in s
    ensures SchemeStripped(s, |Prefixes|) == s && Normalized(s) == s
  {
    assert |s| >= 8 ==> s[..8][6] != "https://"[6];
    assert |s| >= 7 ==> s[..7][5] != "http://"[5];
    assert SchemeStripped(s, 1) == s;
    assert SchemeStripped(s, 2) == s;
    SplitHead(s, '/');
  }
}
