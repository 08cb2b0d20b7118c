/** The text of the owner query sent to the CRM: the magazine name with every
    single quote escaped, inside a fixed SOQL statement. */
module Soql {

  /** Everything of the statement before the quoted magazine name. */
  const QueryPrefix: string :=
    "SELECT Client_Success_Manager__r.Email from Magazine__c where Inactive__c = false AND Name like '"

  /** `strings.Replace(magazine, "'", "\\'", -1)`: every quote gets a
      backslash in front of it, every other character is kept. The result is
      longer by the number of quotes, and every quote in it is escaped. */
  function EscapeQuotes(s: string): (r: string)
    ensures |r| == |s| + multiset(s)['\'']
    ensures forall i :: 0 <= i < |r| && r[i] == '\'' ==> 0 < i && r[i - 1] == '\\'
  {
    if s == [] then []
    else
      assert s == [s[0]] + s[1..];
      (if s[0] == '\'' then "\\'" else [s[0]]) + EscapeQuotes(s[1..])
  }

  /** Drops the backslash in front of each quote. */
  function Unescape(t: string): string
  {
    if |t| >= 2 && t[0] == '\\' && t[1] == '\'' then "'" + Unescape(t[2..])
    else if t == [] then []
    else [t[0]] + Unescape(t[1..])
  }

  lemma UnescapeQuote(rest: string)
    ensures Unescape("\\'" + rest) == "'" + Unescape(rest)
  {
    var t := "\\'" + rest;
    assert t[0] == '\\' && t[1] == '\'' && t[2..] == rest;
  }

  lemma UnescapeOther(c: char, rest: string)
    requires c != '\''
    requires rest != [] ==> rest[0] != '\''
    ensures Unescape([c] + rest) == [c] + Unescape(rest)
  {
    var t := [c] + rest;
    assert t[0] == c && t[1..] == rest;
    assert |t| >= 2 ==> t[1] == rest[0];
  }

  /** Removing the backslash before each quote recovers the name, so two
      different names never give the same escaped text. */
  lemma {:induction false} UnescapeEscape(s: string)
    ensures Unescape(EscapeQuotes(s)) == s
  {
    if s != [] {
      var rest := EscapeQuotes(s[1..]);
      UnescapeEscape(s[1..]);
      if s[0] == '\'' {
        assert EscapeQuotes(s) == "\\'" + rest;
        UnescapeQuote(rest);
      } else {
        assert EscapeQuotes(s) == [s[0]] + rest;
        UnescapeOther(s[0], rest);
      }
      assert s == [s[0]] + s[1..];
    }
  }

  /** The statement for one magazine: prefix, escaped name, closing quote. */
  function QueryText(magazine: string): string
  {
    QueryPrefix + EscapeQuotes(magazine) + "'"
  }

  /** Reads the magazine name back out of a statement. */
  function MagazineOf(q: string): string
    requires |QueryPrefix| < |q|
  {
    Unescape(q[|QueryPrefix|..|q| - 1])
  }

  /** The statement starts with the fixed prefix, ends with a quote, and the
      name reads back out of it: different names give different statements. */
  lemma QueryTextRoundTrip(magazine: string)
    ensures |QueryPrefix| < |QueryText(magazine)|
    ensures QueryText(magazine)[..|QueryPrefix|] == QueryPrefix
    ensures QueryText(magazine)[|QueryText(magazine)| - 1] == '\''
    ensures MagazineOf(QueryText(magazine)) == magazine
  {
    var q := QueryText(magazine);
    assert q[|QueryPrefix|..|q| - 1] == EscapeQuotes(magazine);
    UnescapeEscape(magazine);
  }
}
