/**
 * Removal of HTML tags from the Telegram text before it goes to Discord:
 * the JavaScript call `message.replace(/<[^>]+>/g, "")`, i.e. every
 * left-most, non-overlapping match of `<[^>]+>` deleted in one pass.
 */
module Html {
  import opened Wrappers

  /** `t` is a word of the regular language `<[^>]+>`. */
  ghost predicate IsTag(t: string) {
    |t| >= 3 && t[0] == '<' && t[|t| - 1] == '>' &&
    forall k :: 0 < k < |t| - 1 ==> t[k] != '>'
  }

  /** Some substring of `s` matches `<[^>]+>`, so the regular expression finds a match. */
  ghost predicate HasTag(s: string) {
    exists i, j :: 0 <= i < j <= |s| && IsTag(s[i..j])
  }

  /** Index of the first `c` in `s`. */
  function IndexOf(s: string, c: char): (r: Option<nat>)
    ensures r.Some? ==> r.value < |s| && s[r.value] == c && c !in s[..r.value]
    ensures r.None? <==> c !in s
  {
    if s == [] then None
    else if s[0] == c then Some(0)
    else
      var r := IndexOf(s[1..], c);
      assert s == [s[0]] + s[1..];
      if r.Some? then
        assert s[..r.value + 1] == [s[0]] + s[1..][..r.value];
        Some(r.value + 1)
      else None
  }

  /**
   * Length of the match of `<[^>]+>` that starts at the first character of `s`:
   * a `<`, at least one character other than `>`, and the first `>` after them.
   */
  function TagAtStart(s: string): (r: Option<nat>)
    ensures r.Some? ==> 3 <= r.value <= |s| && IsTag(s[..r.value])
    ensures r.None? <==> !(|s| >= 2 && s[0] == '<' && s[1] != '>' && '>' in s[1..])
  {
    if |s| >= 2 && s[0] == '<' && s[1] != '>' then
      assert s[1..] == [s[1]] + s[2..];
      match IndexOf(s[2..], '>')
      case Some(k) =>
        assert forall m :: 0 < m < k + 2 ==> s[m] != '>' by {
          forall m | 0 < m < k + 2 ensures s[m] != '>' {
            if m >= 2 { assert s[m] == s[2..][..k][m - 2]; }
          }
        }
        Some(k + 3)
      case None => None
    else None
  }

  /** `s.replace(/<[^>]+>/g, "")`. */
  function StripTags(s: string): string
    decreases |s|
  {
    if s == [] then []
    else match TagAtStart(s)
      case Some(n) => StripTags(s[n..])
      case None => [s[0]] + StripTags(s[1..])
  }

  /** No `<` of `s` opens a tag: each is last, directly followed by `>`, or followed by no `>` at all. */
  ghost predicate NoTagOpens(s: string) {
    forall i :: 0 <= i < |s| && s[i] == '<' ==> OpensNothing(s[i + 1..])
  }

  ghost predicate OpensNothing(rest: string) {
    rest == [] || rest[0] == '>' || '>' !in rest
  }

  /** NoTagOpens is exactly the absence of a match. */
  lemma NoTagOpensIff(s: string)
    ensures NoTagOpens(s) <==> !HasTag(s)
  {
    if HasTag(s) {
      TagOpens(s);
    }
    if !NoTagOpens(s) {
      OpenedTag(s);
    }
  }

  /** The `<` of a match opens a tag. */
  lemma TagOpens(s: string)
    requires HasTag(s)
    ensures !NoTagOpens(s)
  {
    var i, j :| 0 <= i < j <= |s| && IsTag(s[i..j]);
    var t := s[i..j];
    assert s[i] == t[0];
    var rest := s[i + 1..];
    assert rest[0] == t[1];
    assert rest[j - i - 2] == t[j - i - 1];
    assert !OpensNothing(rest);
  }

  /** A `<` that opens a tag starts a match. */
  lemma OpenedTag(s: string)
    requires !NoTagOpens(s)
    ensures HasTag(s)
  {
    var i :| 0 <= i < |s| && s[i] == '<' && !OpensNothing(s[i + 1..]);
    assert s[i..][1..] == s[i + 1..];
    var n := TagAtStart(s[i..]).value;
    assert s[i..][..n] == s[i..i + n];
  }

  /** Characters absent from the input are absent from the output. */
  lemma {:induction false} StripTagsKeepsOut(s: string, c: char)
    requires c !in s
    ensures c !in StripTags(s)
    decreases |s|
  {
    if s != [] {
      match TagAtStart(s)
      case Some(n) =>
        assert forall x :: x in s[n..] ==> x in s;
        StripTagsKeepsOut(s[n..], c);
      case None =>
        assert forall x :: x in s[1..] ==> x in s;
        StripTagsKeepsOut(s[1..], c);
    }
  }

  /** Putting a character that opens no tag in front of a tag-free text keeps it tag-free. */
  lemma ConsNoTagOpens(c: char, r: string)
    requires NoTagOpens(r)
    requires c == '<' ==> OpensNothing(r)
    ensures NoTagOpens([c] + r)
  {
    var t := [c] + r;
    forall i | 0 <= i < |t| && t[i] == '<' ensures OpensNothing(t[i + 1..]) {
      if i == 0 {
        assert t[1..] == r;
      } else {
        assert t[i] == r[i - 1];
        assert t[i + 1..] == r[i..];
      }
    }
  }

  /** The result of the strip opens no tag. */
  lemma {:induction false} StripTagsNoTagOpens(s: string)
    ensures NoTagOpens(StripTags(s))
    decreases |s|
  {
    if s != [] {
      match TagAtStart(s)
      case Some(n) =>
        StripTagsNoTagOpens(s[n..]);
      case None =>
        var r := StripTags(s[1..]);
        StripTagsNoTagOpens(s[1..]);
        if s[0] == '<' && r != [] {
          if s[1] == '>' {
            assert TagAtStart(s[1..]).None?;
            assert r == [s[1]] + StripTags(s[2..]);
          } else {
            assert '>' !in s[1..];
            StripTagsKeepsOut(s[1..], '>');
          }
        }
        ConsNoTagOpens(s[0], r);
    }
  }

  /** A text that opens no tag passes through the strip unchanged. */
  lemma {:induction false} StripTagsFixesClean(s: string)
    requires NoTagOpens(s)
    ensures StripTags(s) == s
    decreases |s|
  {
    if s != [] {
      if s[0] == '<' {
        assert OpensNothing(s[1..]);
      }
      assert TagAtStart(s).None?;
      assert NoTagOpens(s[1..]) by {
        forall i | 0 <= i < |s[1..]| && s[1..][i] == '<' ensures OpensNothing(s[1..][i + 1..]) {
          assert s[1..][i + 1..] == s[i + 2..];
        }
      }
      StripTagsFixesClean(s[1..]);
      assert s == [s[0]] + s[1..];
    }
  }

  /** The Discord text contains no match of `<[^>]+>`. */
  lemma StripTagsLeavesNoTag(s: string)
    ensures !HasTag(StripTags(s))
  {
    StripTagsNoTagOpens(s);
    NoTagOpensIff(StripTags(s));
  }

  /** Stripping twice is stripping once. */
  lemma StripTagsIdempotent(s: string)
    ensures StripTags(StripTags(s)) == StripTags(s)
  {
    StripTagsNoTagOpens(s);
    StripTagsFixesClean(StripTags(s));
  }

  /** The strip changes a text exactly when the text holds a match. */
  lemma StripTagsFixpoint(s: string)
    ensures StripTags(s) == s <==> !HasTag(s)
  {
    NoTagOpensIff(s);
    if StripTags(s) == s {
      StripTagsLeavesNoTag(s);
    } else if NoTagOpens(s) {
      StripTagsFixesClean(s);
    }
  }

  /** The strip never lengthens a text. */
  lemma {:induction false} StripTagsShrinks(s: string)
    ensures |StripTags(s)| <= |s|
    decreases |s|
  {
    if s != [] {
      match TagAtStart(s)
      case Some(n) => StripTagsShrinks(s[n..]);
      case None => StripTagsShrinks(s[1..]);
    }
  }

  /** A leading well-formed tag `<name>` is removed and the rest is stripped on its own. */
  lemma StripTagsDropsTag(name: string, rest: string)
    requires |name| > 0 && '>' !in name
    ensures StripTags("<" + name + ">" + rest) == StripTags(rest)
  {
    var s := "<" + name + ">" + rest;
    assert s[1] == name[0];
    assert s[2..] == name[1..] + ">" + rest;
    assert '>' !in name[1..];
    IndexOfAfter(name[1..], '>', rest);
    assert TagAtStart(s) == Some(|name| + 2);
    assert s[|name| + 2..] == rest;
  }

  /** The first `c` of `a + [c] + b` is the one after `a` when `a` holds none. */
  lemma {:induction false} IndexOfAfter(a: string, c: char, b: string)
    requires c !in a
    ensures IndexOf(a + [c] + b, c) == Some(|a|)
    decreases |a|
  {
    if a != [] {
      assert (a + [c] + b)[1..] == a[1..] + [c] + b;
      IndexOfAfter(a[1..], c, b);
    }
  }

  /** A leading text without `<` is kept as it is. */
  lemma {:induction false} StripTagsKeepsPlain(p: string, rest: string)
    requires '<' !in p
    ensures StripTags(p + rest) == p + StripTags(rest)
    decreases |p|
  {
    if p == [] {
      assert p + rest == rest;
    } else {
      var s := p + rest;
      var tail := p[1..];
      assert '<' !in tail by {
        assert forall k :: 0 <= k < |tail| ==> tail[k] == p[k + 1];
      }
      calc {
        StripTags(s);
        { assert s[0] == p[0]; StripTagsPlainHead(s); }
        [p[0]] + StripTags(s[1..]);
        { assert s[1..] == tail + rest; }
        [p[0]] + StripTags(tail + rest);
        { StripTagsKeepsPlain(tail, rest); }
        [p[0]] + (tail + StripTags(rest));
        { ConcatAssoc([p[0]], tail, StripTags(rest)); assert [p[0]] + tail == p; }
        p + StripTags(rest);
      }
    }
  }

  /** Concatenation is associative. */
  lemma ConcatAssoc(a: string, b: string, c: string)
    ensures a + (b + c) == (a + b) + c
  {
  }

  /** A first character other than `<` is kept, and the strip goes on after it. */
  lemma StripTagsPlainHead(s: string)
    requires s != [] && s[0] != '<'
    ensures StripTags(s) == [s[0]] + StripTags(s[1..])
  {
    assert TagAtStart(s).None?;
  }
}
