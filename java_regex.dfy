/**
 * The part of java.util.regex the legacy build step relies on:
 * String.replaceAll with the pattern `\$\{?KEY\}?` (KEY taken as literal text)
 * and a replacement string read the way Matcher.appendReplacement reads it.
 * None stands for the exception replaceAll throws on a malformed replacement.
 */
module JavaRegex {
  import opened Wrappers

  /** a + the string in o, or None when o is None */
  function Prefixed(a: string, o: Option<string>): (r: Option<string>)
    ensures r.Some? <==> o.Some?
    ensures r.Some? ==> r.value == a + o.value
  {
    match o
    case None => None
    case Some(t) => Some(a + t)
  }

  /** Leading '0' characters dropped */
  function SkipZeros(s: string): (r: string)
    ensures |r| <= |s| && r == s[|s| - |r|..]
    ensures forall i :: 0 <= i < |s| - |r| ==> s[i] == '0'
    ensures r == [] || r[0] != '0'
  {
    if s != [] && s[0] == '0' then SkipZeros(s[1..]) else s
  }

  /** A replacement string with no `\` and no `$`: replaceAll inserts it as it is */
  predicate IsLiteralReplacement(value: string)
  {
    '\\' !in value && '$' !in value
  }

  /** The head and tail of a non-empty literal replacement */
  lemma LiteralTail(value: string)
    requires value != [] && IsLiteralReplacement(value)
    ensures value[0] != '\\' && value[0] != '$' && IsLiteralReplacement(value[1..])
    ensures [value[0]] + value[1..] == value
  {
    assert value[0] in value;
    forall i | 0 <= i < |value[1..]|
      ensures value[1..][i] != '\\' && value[1..][i] != '$'
    {
      assert value[1..][i] == value[i + 1] && value[i + 1] in value;
    }
  }

  /**
   * The text one match is replaced by, for a pattern without capturing groups:
   * `\c` stands for c, `$0` (with any further zeros, which still name group 0) for
   * the matched text, and every other character for itself. A trailing `\` or `$`,
   * a named reference `${...}`, a reference to a group other than 0 and a `$`
   * followed by anything else make the replacement fail. A value with no `\` and
   * no `$` is inserted as it is.
   */
  function Replacement(value: string, matched: string): (r: Option<string>)
    ensures IsLiteralReplacement(value) ==> r == Some(value)
    decreases |value|
  {
    if value == [] then Some([])
    else if value[0] == '\\' then
      if |value| == 1 then None else Prefixed([value[1]], Replacement(value[2..], matched))
    else if value[0] == '$' then
      if |value| >= 2 && value[1] == '0' then Prefixed(matched, Replacement(SkipZeros(value[2..]), matched))
      else None
    else
      var r := Prefixed([value[0]], Replacement(value[1..], matched));
      assert IsLiteralReplacement(value) ==> r == Some(value) by {
        if IsLiteralReplacement(value) {
          LiteralTail(value);
        }
      }
      r
  }

  /** `\c` is the character c, whatever c is */
  lemma EscapedChar(c: char, matched: string)
    ensures Replacement(['\\', c], matched) == Some([c])
  {
    var v := ['\\', c];
    assert v[1] == c && v[2..] == [];
    assert Replacement([], matched) == Some([]);
    assert [c] + [] == [c];
  }

  /** Leading zeros make up the whole of a run of zeros */
  lemma {:induction false} SkipAllZeros(zeros: string)
    requires forall i :: 0 <= i < |zeros| ==> zeros[i] == '0'
    ensures SkipZeros(zeros) == []
    decreases |zeros|
  {
    if zeros != [] {
      SkipAllZeros(zeros[1..]);
    }
  }

  /** `$0`, with any number of further zeros, is the matched text */
  lemma GroupZero(zeros: string, matched: string)
    requires forall i :: 0 <= i < |zeros| ==> zeros[i] == '0'
    ensures Replacement("$0" + zeros, matched) == Some(matched)
  {
    var v := "$0" + zeros;
    assert v[2..] == zeros;
    SkipAllZeros(zeros);
    assert Replacement([], matched) == Some([]);
    assert matched + [] == matched;
  }

  /** A lone `$`, a reference to group 1 and a named reference are all rejected */
  lemma MalformedReplacements(matched: string)
    ensures Replacement("$", matched).None?
    ensures Replacement("$1", matched).None?
    ensures Replacement("${X}", matched).None?
    ensures Replacement("100$", matched).None?
  {
    assert "100$"[1..] == "00$" && "00$"[1..] == "0$" && "0$"[1..] == "$";
  }

  /** 1 when s starts with a closing brace, else 0: what the greedy `\}?` takes */
  function CloseBrace(s: string): (n: nat)
    ensures n <= 1 && n <= |s|
    ensures n == 1 <==> (s != [] && s[0] == '}')
  {
    if s != [] && s[0] == '}' then 1 else 0
  }

  /**
   * The length of the match of `\$\{?KEY\}?` at the start of s, if there is one.
   * The greedy `\{?` is tried first and given back when KEY does not follow it.
   */
  function KeyMatchAt(s: string, key: string): (n: Option<nat>)
    ensures n.Some? ==> 1 <= n.value <= |s| && s[0] == '$'
    ensures s != [] && s[0] == '$' && key <= s[1..] && !(|s| >= 2 && s[1] == '{' && key <= s[2..])
            ==> n == Some(1 + |key| + CloseBrace(s[1 + |key|..]))
    ensures |s| >= 2 && s[0] == '$' && s[1] == '{' && key <= s[2..] ==> n == Some(2 + |key| + CloseBrace(s[2 + |key|..]))
    ensures n.None? <==> (s == [] || s[0] != '$' || !(key <= s[1..] || (|s| >= 2 && s[1] == '{' && key <= s[2..])))
  {
    if s == [] || s[0] != '$' then None
    else if |s| >= 2 && s[1] == '{' && key <= s[2..] then Some(2 + |key| + CloseBrace(s[2 + |key|..]))
    else if key <= s[1..] then Some(1 + |key| + CloseBrace(s[1 + |key|..]))
    else None
  }

  /**
   * s.replaceAll("\\$\\{?" + key + "\\}?", value): from left to right, every match
   * is replaced and the scan goes on after it; the text between matches is kept.
   * Fails when a match exists and the replacement is malformed, and never when the
   * value is literal.
   */
  function ReplaceAllKey(s: string, key: string, value: string): (r: Option<string>)
    ensures IsLiteralReplacement(value) ==> r.Some?
    decreases |s|
  {
    if s == [] then Some([])
    else
      match KeyMatchAt(s, key)
      case None => Prefixed([s[0]], ReplaceAllKey(s[1..], key, value))
      case Some(n) =>
        match Replacement(value, s[..n])
        case None => None
        case Some(rep) => Prefixed(rep, ReplaceAllKey(s[n..], key, value))
  }

  /** Text without a dollar sign passes through unchanged */
  lemma {:induction false} ReplaceAllKeyLiteralPrefix(a: string, b: string, key: string, value: string)
    requires '$' !in a
    ensures ReplaceAllKey(a + b, key, value) == Prefixed(a, ReplaceAllKey(b, key, value))
    decreases |a|
  {
    if a == [] {
      assert a + b == b;
      match ReplaceAllKey(b, key, value)
      case None =>
      case Some(t) => assert a + t == t;
    } else {
      TailWithout(a, '$');
      ReplaceAllKeyLiteralPrefix(a[1..], b, key, value);
      match ReplaceAllKey(b, key, value)
      case None => ConcatHead(a, b, []);
      case Some(t) => ConcatHead(a, b, t);
    }
  }

  /** A string without a dollar sign is left as it is, whatever the key and the value */
  lemma ReplaceAllKeyWithoutDollar(s: string, key: string, value: string)
    requires '$' !in s
    ensures ReplaceAllKey(s, key, value) == Some(s)
  {
    ReplaceAllKeyLiteralPrefix(s, [], key, value);
    assert s + [] == s;
  }

  /** The match at the start of s replaced, then the rest of s scanned */
  lemma ReplaceAllKeyAtMatch(s: string, key: string, value: string, n: nat)
    requires KeyMatchAt(s, key) == Some(n) && IsLiteralReplacement(value)
    ensures ReplaceAllKey(s, key, value) == Prefixed(value, ReplaceAllKey(s[n..], key, value))
  {
  }

  /** `$KEY` followed by anything but `}` becomes the value */
  lemma BareKey(key: string, rest: string, value: string)
    requires key != [] && key[0] != '{'
    requires rest == [] || rest[0] != '}'
    requires IsLiteralReplacement(value)
    ensures ReplaceAllKey("$" + key + rest, key, value) == Prefixed(value, ReplaceAllKey(rest, key, value))
  {
    var s := "$" + key + rest;
    assert KeyMatchAt(s, key) == Some(1 + |key|) by {
      assert s[1..] == key + rest && key <= s[1..];
      assert s[1] == key[0];
      assert s[1 + |key|..] == rest;
    }
    assert s[1 + |key|..] == rest;
    ReplaceAllKeyAtMatch(s, key, value, 1 + |key|);
  }

  /** `$KEY}` becomes the value too: the optional closing brace is taken without an opening one */
  lemma BareKeyWithBrace(key: string, rest: string, value: string)
    requires key != [] && key[0] != '{'
    requires IsLiteralReplacement(value)
    ensures ReplaceAllKey("$" + key + "}" + rest, key, value) == Prefixed(value, ReplaceAllKey(rest, key, value))
  {
    var s := "$" + key + "}" + rest;
    assert s[1..] == key + ("}" + rest) && key <= s[1..];
    assert s[1] == key[0];
    assert s[1 + |key|..] == "}" + rest;
    assert s[2 + |key|..] == rest;
    ReplaceAllKeyAtMatch(s, key, value, 2 + |key|);
  }

  /** `${KEY}` becomes the value */
  lemma BracedKey(key: string, rest: string, value: string)
    requires IsLiteralReplacement(value)
    ensures ReplaceAllKey("${" + key + "}" + rest, key, value) == Prefixed(value, ReplaceAllKey(rest, key, value))
  {
    var s := "${" + key + "}" + rest;
    assert s[2..] == key + ("}" + rest) && key <= s[2..];
    assert s[2 + |key|..] == "}" + rest;
    assert s[3 + |key|..] == rest;
    ReplaceAllKeyAtMatch(s, key, value, 3 + |key|);
  }

  /** `$KEY` at the very end becomes the value */
  lemma TrailingBareKey(key: string, value: string)
    requires key != [] && key[0] != '{'
    requires IsLiteralReplacement(value)
    ensures ReplaceAllKey("$" + key, key, value) == Some(value)
  {
    BareKey(key, [], value);
    assert "$" + key + [] == "$" + key;
    assert ReplaceAllKey([], key, value) == Some([]);
    assert value + [] == value;
  }

  /** `${KEY}`, literal text, `$KEY`: both occurrences become the value */
  lemma BracedThenBareKey(key: string, b: string, value: string)
    requires '$' !in b && b != [] && b[0] != '}'
    requires key != [] && key[0] != '{'
    requires IsLiteralReplacement(value)
    ensures ReplaceAllKey("${" + key + "}" + (b + ("$" + key)), key, value) == Some(value + (b + value))
  {
    var tail := "$" + key;
    assert ReplaceAllKey(b + tail, key, value) == Some(b + value) by {
      TrailingBareKey(key, value);
      ReplaceAllKeyLiteralPrefix(b, tail, key, value);
    }
    BracedKey(key, b + tail, value);
  }

  /**
   * Every occurrence is replaced: literal text, `${KEY}`, literal text, `$KEY` at the
   * end gives the literal text around two copies of the value.
   */
  lemma EveryOccurrence(a: string, key: string, b: string, value: string)
    requires '$' !in a && '$' !in b && b != [] && b[0] != '}'
    requires key != [] && key[0] != '{'
    requires IsLiteralReplacement(value)
    ensures ReplaceAllKey(a + ("${" + key + "}" + (b + ("$" + key))), key, value) == Some(a + (value + (b + value)))
  {
    BracedThenBareKey(key, b, value);
    ReplaceAllKeyLiteralPrefix(a, "${" + key + "}" + (b + ("$" + key)), key, value);
  }

  /** A malformed replacement makes replaceAll fail as soon as there is a match */
  lemma MalformedReplacementFails(key: string, rest: string, value: string)
    requires Replacement(value, "${" + key + "}").None?
    ensures ReplaceAllKey("${" + key + "}" + rest, key, value).None?
  {
    var s := "${" + key + "}" + rest;
    assert s[2..] == key + ("}" + rest) && key <= s[2..];
    assert s[2 + |key|..] == "}" + rest;
    assert s[..3 + |key|] == "${" + key + "}";
  }
}
