// Texts of named fields, as a reader takes them apart: words between spaces, each
// word NAME=value.
module Wording {
  import opened Bytes

  function FindSpace(s: string): (n: nat)
    ensures n <= |s|
    ensures n < |s| ==> s[n] == ' '
    ensures forall i :: 0 <= i < n ==> s[i] != ' '
  {
    if s == "" || s[0] == ' ' then 0 else 1 + FindSpace(s[1..])
  }

  function Words(s: string): seq<string>
    decreases |s|
  {
    var n := FindSpace(s);
    if n == |s| then [s] else [s[..n]] + Words(s[n + 1..])
  }

  // The values given under one name, in order.
  function Values(words: seq<string>, name: string): seq<string> {
    if words == [] then []
    else (if name + "=" <= words[0] then [words[0][|name| + 1..]] else []) + Values(words[1..], name)
  }

  // --- writing ---------------------------------------------------------------

  datatype Field = Field(name: string, value: string)

  // A name has no '=' and no space, a value no space.
  predicate Simple(f: Field) {
    '=' !in f.name && ' ' !in f.name && ' ' !in f.value
  }

  predicate AllSimple(fs: seq<Field>) {
    forall i :: 0 <= i < |fs| ==> Simple(fs[i])
  }

  function Word(f: Field): string {
    f.name + "=" + f.value
  }

  function Spell(fs: seq<Field>): seq<string> {
    if fs == [] then [] else [Word(fs[0])] + Spell(fs[1..])
  }

  // The fields after a first word.
  function Following(fs: seq<Field>): string {
    if fs == [] then "" else " " + Word(fs[0]) + Following(fs[1..])
  }

  // --- and reading back ------------------------------------------------------

  lemma WordsCons(a: string, rest: string)
    requires ' ' !in a
    ensures Words(a + (" " + rest)) == [a] + Words(rest)
    ensures Words(a) == [a]
  {
    var s := a + (" " + rest);
    assert s[|a|] == ' ' && forall i :: 0 <= i < |a| ==> s[i] == a[i];
    assert FindSpace(s) == |a|;
    assert s[..|a|] == a && s[|a| + 1..] == rest;
  }

  lemma {:induction false} WordsOf(a: string, fs: seq<Field>)
    requires ' ' !in a && AllSimple(fs)
    ensures Words(a + Following(fs)) == [a] + Spell(fs)
    decreases |fs|
  {
    hide Words;
    if fs == [] {
      WordsCons(a, "");
      assert a + "" == a;
    } else {
      var w, more := Word(fs[0]), Following(fs[1..]);
      assert Following(fs) == " " + (w + more);
      WordsCons(a, w + more);
      WordsOf(w, fs[1..]);
    }
  }

  lemma NamedBy(f: Field, name: string)
    requires Simple(f) && '=' !in name
    ensures name + "=" <= Word(f) <==> name == f.name
    ensures Word(f)[|f.name| + 1..] == f.value
  {
    var w := Word(f);
    assert w[|f.name|] == '=';
    assert forall i :: 0 <= i < |f.name| ==> w[i] == f.name[i];
    if name + "=" <= w {
      assert (name + "=")[|name|] == '=' == w[|name|];
      assert forall i :: 0 <= i < |name| ==> w[i] == name[i];
      assert |name| == |f.name|;
    }
  }

  lemma {:induction false} NoValues(fs: seq<Field>, name: string)
    requires AllSimple(fs) && '=' !in name && forall i :: 0 <= i < |fs| ==> fs[i].name != name
    ensures Values(Spell(fs), name) == []
    decreases |fs|
  {
    hide Word, Simple;
    if fs != [] {
      NamedBy(fs[0], name);
      NoValues(fs[1..], name);
    }
  }

  // A name given once has one value.
  lemma {:induction false} OneValue(fs: seq<Field>, j: nat)
    requires AllSimple(fs) && j < |fs| && forall i :: 0 <= i < |fs| && i != j ==> fs[i].name != fs[j].name
    ensures Values(Spell(fs), fs[j].name) == [fs[j].value]
    decreases |fs|
  {
    hide Word;
    assert '=' !in fs[j].name;
    NamedBy(fs[0], fs[j].name);
    if j == 0 {
      NoValues(fs[1..], fs[0].name);
    } else {
      OneValue(fs[1..], j - 1);
    }
  }

  // A word without '=' names nothing.
  lemma BareWord(w: string, words: seq<string>, name: string)
    requires '=' !in w
    ensures Values([w] + words, name) == Values(words, name)
  {
    assert ([w] + words)[1..] == words;
    assert (name + "=")[|name|] == '=';
  }

  // The value of a name given exactly once.
  function Only(words: seq<string>, name: string): Option<string> {
    var vs := Values(words, name);
    if |vs| == 1 then Some(vs[0]) else None
  }
}
