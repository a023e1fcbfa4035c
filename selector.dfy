/** Submodule selectors of the form `name` or `name.feature`: the string is
    split on '.' exactly as `String.prototype.split` does, and only the
    first two parts are used (index.js:103). */
module Selector {

  /** `s.split(sep)`: the maximal runs of non-separator characters, including
      the empty ones around adjacent separators and at either end. */
  function Split(s: string, sep: char): (parts: seq<string>)
    ensures |parts| >= 1
    ensures forall i :: 0 <= i < |parts| ==> sep !in parts[i]
    decreases |s|
  {
    if s == [] then [[]]
    else
      var rest := Split(s[1..], sep);
      if s[0] == sep then [[]] + rest
      else [[s[0]] + rest[0]] + rest[1..]
  }

  /** `parts.join(sep)`, the inverse of Split. */
  function Join(parts: seq<string>, sep: char): string
    requires |parts| >= 1
    decreases |parts|
  {
    if |parts| == 1 then parts[0] else parts[0] + [sep] + Join(parts[1..], sep)
  }

  /** Splitting and re-joining gives back the selector: no character is lost. */
  lemma {:induction false} JoinSplit(s: string, sep: char)
    ensures Join(Split(s, sep), sep) == s
    decreases |s|
  {
    if s != [] {
      JoinSplit(s[1..], sep);
      var rest := Split(s[1..], sep);
      if s[0] != sep && |rest| > 1 {
        assert [s[0]] + rest[0] + [sep] + Join(rest[1..], sep) == [s[0]] + Join(rest, sep);
      }
      assert s == [s[0]] + s[1..];
    }
  }

  /** Joining separator-free parts and splitting again gives back the parts. */
  lemma {:induction false} SplitJoin(parts: seq<string>, sep: char)
    requires |parts| >= 1
    requires forall i :: 0 <= i < |parts| ==> sep !in parts[i]
    ensures Split(Join(parts, sep), sep) == parts
    decreases |parts|, |parts[0]|
  {
    var head := parts[0];
    if head == [] {
      if |parts| > 1 {
        SplitJoin(parts[1..], sep);
        assert Join(parts, sep) == [sep] + Join(parts[1..], sep);
        assert ([sep] + Join(parts[1..], sep))[1..] == Join(parts[1..], sep);
        assert parts == [[]] + parts[1..];
      }
    } else {
      var shorter := [head[1..]] + parts[1..];
      assert forall i :: 0 <= i < |shorter| ==> sep !in shorter[i] by {
        forall i | 0 <= i < |shorter| ensures sep !in shorter[i] {
          if i == 0 {
            assert forall c :: c in head[1..] ==> c in head;
          } else {
            assert shorter[i] == parts[i];
          }
        }
      }
      SplitJoin(shorter, sep);
      assert Join(parts, sep) == [head[0]] + Join(shorter, sep) by {
        if |parts| > 1 {
          assert Join(shorter, sep) == head[1..] + [sep] + Join(parts[1..], sep);
          assert head == [head[0]] + head[1..];
        } else {
          assert head == [head[0]] + head[1..];
        }
      }
      assert head[0] != sep by { assert head[0] in head; }
      var joined := Join(parts, sep);
      assert joined[1..] == Join(shorter, sep);
      assert head == [head[0]] + head[1..];
    }
  }

  /** The name and feature selected by `name.feature`: the first two parts of
      the split; a missing or empty feature is `""`, which the source treats
      as "no feature" because it is falsy. */
  function ParseSelector(selector: string): (r: (string, string))
    ensures '.' !in r.0 && '.' !in r.1
  {
    var parts := Split(selector, '.');
    (parts[0], if |parts| > 1 then parts[1] else "")
  }

  /** A plain name selects that submodule and no feature. */
  lemma PlainSelector(name: string)
    requires '.' !in name
    ensures ParseSelector(name) == (name, "")
  {
    SplitJoin([name], '.');
  }

  /** `name.feature` selects that submodule and that feature. */
  lemma DottedSelector(name: string, feature: string)
    requires '.' !in name && '.' !in feature
    ensures ParseSelector(name + "." + feature) == (name, feature)
  {
    SplitJoin([name, feature], '.');
  }

  /** Parts after the second are ignored: `name.feature.more` selects the same
      as `name.feature`. */
  lemma ExtraPartsIgnored(name: string, feature: string, more: string)
    requires '.' !in name && '.' !in feature
    ensures ParseSelector(name + "." + feature + "." + more) == (name, feature)
  {
    var tail := Split(more, '.');
    JoinSplit(more, '.');
    var parts := [name, feature] + tail;
    assert Join(parts, '.') == name + "." + feature + "." + more by {
      assert parts[1..][1..] == tail;
      assert Join(parts[1..], '.') == feature + "." + Join(tail, '.');
    }
    SplitJoin(parts, '.');
  }
}
