/** Scripts pass through the container command, where Kubernetes expands variable
    references; the operator doubles every dollar sign beforehand. */
module Escape {

  // strings.ReplaceAll(s, "$", "$$")
  function Double(s: string): string {
    if s == [] then [] else (if s[0] == '$' then "$$" else [s[0]]) + Double(s[1..])
  }

  // The position of the first c in s, or |s|.
  function Find(s: string, c: char): (i: nat)
    ensures i <= |s|
    ensures i < |s| ==> s[i] == c
  {
    if s == [] || s[0] == c then 0 else 1 + Find(s[1..], c)
  }

  /** The expansion the API documents for container commands: $$ becomes $, $(NAME) becomes the variable's value
      or stays as it is if there is no such variable, and any other text is left alone. */
  function Expand(s: string, env: map<string, string>): string
    decreases |s|
  {
    if s == [] then []
    else if s[0] != '$' || |s| == 1 then [s[0]] + Expand(s[1..], env)
    else if s[1] == '$' then "$" + Expand(s[2..], env)
    else if s[1] == '(' && Find(s[2..], ')') < |s| - 2 then
      var n := Find(s[2..], ')');
      var name := s[2..2 + n];
      (if name in env then env[name] else s[..3 + n]) + Expand(s[3 + n..], env)
    else "$" + Expand(s[1..], env)
  }

  /** Every script reaches its shell unchanged, whatever the container's environment. */
  lemma {:induction false} ScriptsArriveUnchanged(s: string, env: map<string, string>)
    ensures Expand(Double(s), env) == s
  {
    if s != [] {
      ScriptsArriveUnchanged(s[1..], env);
      var d := Double(s);
      if s[0] == '$' {
        assert d[0] == '$' && d[1] == '$' && d[2..] == Double(s[1..]);
        assert "$" + s[1..] == s;
      } else {
        assert d[0] == s[0] && d[1..] == Double(s[1..]);
        assert [s[0]] + s[1..] == s;
      }
    }
  }
}
