/**
 * Placeholder expansion of build-step templates against a variable set, in one
 * left-to-right pass: `$NAME` (NAME a longest run of letters, digits and '_') and
 * `${NAME}` (NAME a non-empty run of letters, digits, '_' and '.') are replaced by
 * the value the variable set gives NAME; a placeholder whose name the set does not
 * know, and every other character, is copied unchanged. A value that has been put
 * in is never expanded again.
 */
module Macro {
  import opened Wrappers

  predicate IsNameChar(c: char)
  {
    'A' <= c <= 'Z' || 'a' <= c <= 'z' || '0' <= c <= '9' || c == '_'
  }

  /** Characters allowed in a name between braces */
  predicate InName(c: char, braced: bool)
  {
    IsNameChar(c) || (braced && c == '.')
  }

  /** The length of the longest prefix of s made of name characters */
  function NameRun(s: string, braced: bool): (n: nat)
    ensures n <= |s|
    ensures forall i :: 0 <= i < n ==> InName(s[i], braced)
    ensures n < |s| ==> !InName(s[n], braced)
  {
    if s != [] && InName(s[0], braced) then 1 + NameRun(s[1..], braced) else 0
  }

  /** A placeholder at the head of a template: the name it refers to and how many characters it spans */
  datatype Placeholder = Placeholder(name: string, length: nat)

  /** The placeholder that starts at s[0], if any */
  function PlaceholderAt(s: string): (p: Option<Placeholder>)
    requires s != [] && s[0] == '$'
    ensures p.Some? ==> 2 <= p.value.length <= |s| && p.value.name != []
    ensures p.Some? ==>
      s[..p.value.length] == "$" + p.value.name || s[..p.value.length] == "${" + p.value.name + "}"
  {
    var bare := NameRun(s[1..], false);
    if bare > 0 then
      Some(Placeholder(s[1..1 + bare], 1 + bare))
    else if |s| >= 2 && s[1] == '{' then
      var braced := NameRun(s[2..], true);
      if braced > 0 && 2 + braced < |s| && s[2 + braced] == '}' then
        assert s[..3 + braced] == "${" + s[2..2 + braced] + "}";
        Some(Placeholder(s[2..2 + braced], 3 + braced))
      else None
    else None
  }

  /**
   * The template s with its placeholders expanded against vars. With no variables
   * at all every template is left as it is: unknown placeholders survive.
   */
  function ReplaceMacro(s: string, vars: map<string, string>): (r: string)
    ensures vars == map[] ==> r == s
    decreases |s|
  {
    if s == [] then []
    else if s[0] != '$' then [s[0]] + ReplaceMacro(s[1..], vars)
    else
      match PlaceholderAt(s)
      case None => "$" + ReplaceMacro(s[1..], vars)
      case Some(p) =>
        assert s[..p.length] + s[p.length..] == s;
        (if p.name in vars then vars[p.name] else s[..p.length]) + ReplaceMacro(s[p.length..], vars)
  }

  /** Expansion of a template that may be null: null stays null */
  function ReplaceMacroNullable(s: Option<string>, vars: map<string, string>): (r: Option<string>)
    ensures r.Some? <==> s.Some?
  {
    match s
    case None => None
    case Some(t) => Some(ReplaceMacro(t, vars))
  }

  /** A stretch of text without '$' goes through expansion unchanged and does not affect what follows */
  lemma {:induction false} ReplaceMacroLiteralPrefix(a: string, b: string, vars: map<string, string>)
    requires '$' !in a
    ensures ReplaceMacro(a + b, vars) == a + ReplaceMacro(b, vars)
    decreases |a|
  {
    if a != [] {
      TailWithout(a, '$');
      ReplaceMacroLiteralPrefix(a[1..], b, vars);
      ConcatHead(a, b, ReplaceMacro(b, vars));
    } else {
      assert a + b == b;
    }
  }

  /** Text without placeholders is left as it is */
  lemma ReplaceMacroNoPlaceholder(s: string, vars: map<string, string>)
    requires '$' !in s
    ensures ReplaceMacro(s, vars) == s
  {
    ReplaceMacroLiteralPrefix(s, [], vars);
    assert s + [] == s;
  }

  predicate IsName(n: string, braced: bool)
  {
    n != [] && forall i :: 0 <= i < |n| ==> InName(n[i], braced)
  }

  /** A run of name characters followed by a non-name character is exactly what NameRun measures */
  lemma {:induction false} NameRunOf(name: string, rest: string, braced: bool)
    requires forall i :: 0 <= i < |name| ==> InName(name[i], braced)
    requires rest == [] || !InName(rest[0], braced)
    ensures NameRun(name + rest, braced) == |name|
    decreases |name|
  {
    if name != [] {
      assert (name + rest)[1..] == name[1..] + rest;
      NameRunOf(name[1..], rest, braced);
    } else {
      assert name + rest == rest;
    }
  }

  /** `$NAME` not followed by another name character stands for NAME's value, or for itself if NAME is unknown */
  lemma BarePlaceholder(name: string, rest: string, vars: map<string, string>)
    requires IsName(name, false)
    requires rest == [] || !IsNameChar(rest[0])
    ensures ReplaceMacro("$" + name + rest, vars)
         == (if name in vars then vars[name] else "$" + name) + ReplaceMacro(rest, vars)
  {
    var s := "$" + name + rest;
    assert s[1..] == name + rest;
    NameRunOf(name, rest, false);
    var n := NameRun(s[1..], false);
    assert s[1..1 + n] == name;
    assert s[..1 + n] == "$" + name;
    assert s[1 + n..] == rest;
  }

  /** `${NAME}` stands for NAME's value, or for itself if NAME is unknown */
  lemma BracedPlaceholder(name: string, rest: string, vars: map<string, string>)
    requires IsName(name, true)
    ensures ReplaceMacro("${" + name + "}" + rest, vars)
         == (if name in vars then vars[name] else "${" + name + "}") + ReplaceMacro(rest, vars)
  {
    var s := "${" + name + "}" + rest;
    assert s[1..][0] == '{';
    assert NameRun(s[1..], false) == 0;
    assert s[2..] == name + "}" + rest;
    NameRunOf(name, "}" + rest, true);
    assert name + "}" + rest == name + ("}" + rest);
    var n := NameRun(s[2..], true);
    assert s[2..2 + n] == name;
    assert s[..3 + n] == "${" + name + "}";
    assert s[3 + n..] == rest;
  }

  /** A template with one known `${NAME}` between two stretches of plain text */
  lemma OneBracedPlaceholder(prefix: string, name: string, suffix: string, vars: map<string, string>)
    requires '$' !in prefix && '$' !in suffix
    requires IsName(name, true) && name in vars
    ensures ReplaceMacro(prefix + ("${" + name + "}" + suffix), vars) == prefix + vars[name] + suffix
  {
    ReplaceMacroLiteralPrefix(prefix, "${" + name + "}" + suffix, vars);
    BracedPlaceholder(name, suffix, vars);
    ReplaceMacroNoPlaceholder(suffix, vars);
  }
}
