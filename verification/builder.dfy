/**
  The version strings of the model builder. The version given on the command
  line loses one leading "v" or "V"; the directory the schema is downloaded
  to is named after the version with its dots turned into underscores; the
  package directory the model is generated into is named after the version
  with its dots deleted.
 */
module Builder {

  predicate StartsWithV(s: string) {
    |s| > 0 && (s[0] == 'v' || s[0] == 'V')
  }

  /** The version without its leading "v" or "V"; only the first character is ever removed. */
  function StripLeadingV(version: string): (r: string)
    ensures StartsWithV(version) ==> [version[0]] + r == version
    ensures !StartsWithV(version) ==> r == version
    ensures |version| - 1 <= |r| <= |version| && r == version[|version| - |r|..]
  {
    if StartsWithV(version) then version[1..] else version
  }

  /**
    Every occurrence of the character `from` replaced by `to`, as Python's
    `str.replace` does when the pattern is one character long.
   */
  function Replace(s: string, from: char, to: string): string
    decreases |s|
  {
    if s == [] then []
    else (if s[0] == from then to else [s[0]]) + Replace(s[1..], from, to)
  }

  /** The schema directory suffix: each dot becomes an underscore, nothing else moves. */
  function SchemaDirSuffix(version: string): (r: string)
    ensures |r| == |version|
    ensures forall i | 0 <= i < |r| :: r[i] == (if version[i] == '.' then '_' else version[i])
  {
    ReplaceOneForOne(version, '.', '_');
    Replace(version, '.', "_")
  }

  /** The model directory suffix: each dot is deleted and every other character is kept. */
  function ModelDirSuffix(version: string): (r: string)
    ensures '.' !in r
    ensures multiset(r) == multiset(version)['.' := 0]
    ensures |r| == |version| - multiset(version)['.']
  {
    ReplaceDeleting(version, '.');
    assert multiset(Replace(version, '.', ""))['.'] == 0;
    Replace(version, '.', "")
  }

  // ---------------------------------------------------------------- laws

  /** Replacing is done character by character, so it distributes over concatenation. */
  lemma {:induction false} ReplaceAppend(a: string, b: string, from: char, to: string)
    ensures Replace(a + b, from, to) == Replace(a, from, to) + Replace(b, from, to)
    decreases |a|
  {
    if a != [] {
      var head := if a[0] == from then to else [a[0]];
      assert (a + b)[0] == a[0] && (a + b)[1..] == a[1..] + b;
      assert Replace(a + b, from, to) == head + Replace(a[1..] + b, from, to);
      ReplaceAppend(a[1..], b, from, to);
      assert head + (Replace(a[1..], from, to) + Replace(b, from, to))
          == (head + Replace(a[1..], from, to)) + Replace(b, from, to);
    } else {
      assert a + b == b;
    }
  }

  lemma {:induction false} ReplaceOneForOne(s: string, from: char, to: char)
    ensures |Replace(s, from, [to])| == |s|
    ensures forall i | 0 <= i < |s| :: Replace(s, from, [to])[i] == (if s[i] == from then to else s[i])
    decreases |s|
  {
    if s != [] {
      ReplaceOneForOne(s[1..], from, to);
      var head := if s[0] == from then [to] else [s[0]];
      forall i | 0 <= i < |s| ensures Replace(s, from, [to])[i] == (if s[i] == from then to else s[i]) {
        if i > 0 {
          assert Replace(s, from, [to])[i] == Replace(s[1..], from, [to])[i - 1];
        }
      }
    }
  }

  lemma {:induction false} ReplaceDeleting(s: string, from: char)
    ensures multiset(Replace(s, from, "")) == multiset(s)[from := 0]
    ensures |Replace(s, from, "")| == |s| - multiset(s)[from]
    decreases |s|
  {
    if s != [] {
      ReplaceDeleting(s[1..], from);
      assert s == [s[0]] + s[1..];
      assert multiset(s) == multiset{s[0]} + multiset(s[1..]);
    }
  }

  /** The model directory suffix of a joined version is the join of the suffixes: the kept characters stay in order. */
  lemma ModelDirSuffixAppend(a: string, b: string)
    ensures ModelDirSuffix(a + b) == ModelDirSuffix(a) + ModelDirSuffix(b)
  {
    ReplaceAppend(a, b, '.', "");
  }

  /**
    One character alone: a dot is deleted and anything else is kept. With
    ModelDirSuffixAppend this fixes the model directory suffix of every
    version: its characters other than dots, in their order.
   */
  lemma ModelDirSuffixOneChar(c: char)
    ensures ModelDirSuffix([c]) == (if c == '.' then "" else [c])
  {
    assert [c][1..] == [];
  }

  /** The cases named by the builder's usage: one leading "v" or "V" goes, a second one and a trailing one stay. */
  lemma StripLeadingVExamples()
    ensures StripLeadingV("v2.3") == "2.3" && StripLeadingV("V2.3") == "2.3"
    ensures StripLeadingV("vv2.3") == "v2.3"
    ensures StripLeadingV("2.3v") == "2.3v"
    ensures StripLeadingV("") == ""
  {
    assert StartsWithV("vv2.3");
    assert !StartsWithV("2.3v");
  }

  /** Putting a "v" or "V" in front of a version and stripping it gives the version back. */
  lemma StripLeadingVUndoesPrefix(version: string)
    ensures StripLeadingV("v" + version) == version
    ensures StripLeadingV("V" + version) == version
  {
    assert ("v" + version)[1..] == version;
    assert ("V" + version)[1..] == version;
  }

  lemma DirSuffixExamples()
    ensures SchemaDirSuffix("2.3") == "2_3"
    ensures ModelDirSuffix("2.3") == "23"
  {
    assert "2.3"[1..] == ".3" && ".3"[1..] == "3" && "3"[1..] == "";
  }
}
