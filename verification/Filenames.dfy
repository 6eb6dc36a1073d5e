/** The mapping between topic names and log file names. */
module Filenames {

  /** Every occurrence of `pattern`, from left to right and without overlap, replaced. */
  function ReplaceAll(s: string, pattern: string, with: string): string
    requires pattern != ""
    decreases |s|
  {
    if s == "" then ""
    else if pattern <= s then with + ReplaceAll(s[|pattern|..], pattern, with)
    else [s[0]] + ReplaceAll(s[1..], pattern, with)
  }

  predicate Contains(s: string, pattern: string) {
    exists i | 0 <= i <= |s| :: pattern <= s[i..]
  }

  /** The names the storage accepts. */
  predicate IsSafePath(topic: string) {
    !(Contains(topic, "..") || Contains(topic, "\\") || "/" <= topic || "@" <= topic)
  }

  function TopicToFilename(topic: string): string {
    ReplaceAll(ReplaceAll(topic, "/", "_b_"), "@", "_a_")
  }

  function FilenameToTopic(filename: string): string {
    ReplaceAll(ReplaceAll(filename, "_b_", "/"), "_a_", "@")
  }

  /** How a restart turns a log file name, without its extension, into a topic. */
  function RecoveredName(encoded: string): string {
    if Contains(encoded, "_b_") || Contains(encoded, "_a_") then FilenameToTopic(encoded)
    else ReplaceAll(encoded, "@", "/")
  }

  predicate ValidTopicChar(ch: char) {
    'a' <= ch <= 'z' || 'A' <= ch <= 'Z' || '0' <= ch <= '9' || ch in "._:-/"
  }

  predicate ValidTopic(topic: string) {
    topic != "" && forall ch | ch in topic :: ValidTopicChar(ch)
  }

  /** Three characters in a row, one of `first`, then `mid`, then one of `last`. */
  predicate Triple(s: string, first: string, mid: char, last: string) {
    exists i | 0 <= i < |s| - 2 :: s[i] in first && s[i + 1] == mid && s[i + 2] in last
  }

  /** None of the sequences that the encoding cannot tell from its own. */
  predicate Faithful(topic: string) {
    !Triple(topic, "_@", 'b', "_@/") && !Triple(topic, "_", 'a', "_@")
  }

  // ---------------------------------------------------------------------------
  // Searching
  // ---------------------------------------------------------------------------

  lemma ContainsTail(s: string, pattern: string)
    requires s != "" && pattern != ""
    ensures Contains(s, pattern) <==> pattern <= s || Contains(s[1..], pattern)
  {
    if Contains(s, pattern) && !(pattern <= s) {
      var i :| 0 <= i <= |s| && pattern <= s[i..];
      assert s[0..] == s;
      assert s[1..][i - 1..] == s[i..];
    }
    if pattern <= s {
      assert s[0..] == s;
    }
    if Contains(s[1..], pattern) {
      var i :| 0 <= i <= |s[1..]| && pattern <= s[1..][i..];
      assert s[i + 1..] == s[1..][i..];
    }
  }

  /** Nothing to replace, nothing changed. */
  lemma {:induction false} ReplaceAbsent(s: string, pattern: string, with: string)
    requires pattern != "" && !Contains(s, pattern)
    ensures ReplaceAll(s, pattern, with) == s
  {
    if s == "" {
    } else {
      ContainsTail(s, pattern);
      ReplaceAbsent(s[1..], pattern, with);
    }
  }

  lemma NoCharNoPattern(s: string, ch: char)
    requires ch !in s
    ensures !Contains(s, [ch])
  {
    forall i | 0 <= i <= |s|
      ensures !([ch] <= s[i..])
    {
      if i < |s| { assert s[i..][0] == s[i]; }
    }
  }

  lemma {:induction false} ReplaceKeepsOut(s: string, pattern: string, with: string, ch: char)
    requires pattern != "" && ch !in s && ch !in with
    ensures ch !in ReplaceAll(s, pattern, with)
    decreases |s|
  {
    if s == "" {
    } else {
      ReplaceKeepsOut(if pattern <= s then s[|pattern|..] else s[1..], pattern, with, ch);
    }
  }

  predicate Ahead(s: string, first: string, mid: char, last: string) {
    |s| >= 3 && s[0] in first && s[1] == mid && s[2] in last
  }

  lemma TripleTail(s: string, first: string, mid: char, last: string)
    requires s != ""
    ensures Triple(s, first, mid, last) <==> Ahead(s, first, mid, last) || Triple(s[1..], first, mid, last)
  {
    if Triple(s, first, mid, last) && !Ahead(s, first, mid, last) {
      var i :| 0 <= i < |s| - 2 && s[i] in first && s[i + 1] == mid && s[i + 2] in last;
      assert s[1..][i - 1] == s[i] && s[1..][i] == s[i + 1] && s[1..][i + 1] == s[i + 2];
    }
    if Triple(s[1..], first, mid, last) {
      var i :| 0 <= i < |s[1..]| - 2 && s[1..][i] in first && s[1..][i + 1] == mid && s[1..][i + 2] in last;
      assert s[i + 1] in first && s[i + 2] == mid && s[i + 3] in last;
    }
  }

  // ---------------------------------------------------------------------------
  // One character spelled out
  // ---------------------------------------------------------------------------

  /** The spelling of a character as `_x_`. */
  function Mark(x: char): string { ['_', x, '_'] }

  function Encode(s: string, ch: char, x: char): string { ReplaceAll(s, [ch], Mark(x)) }

  function Decode(s: string, ch: char, x: char): string { ReplaceAll(s, Mark(x), [ch]) }

  lemma EncodeStep(s: string, ch: char, x: char)
    requires s != ""
    ensures Encode(s, ch, x) == (if s[0] == ch then Mark(x) else [s[0]]) + Encode(s[1..], ch, x)
  {
  }

  /** Where an encoded string starts like a mark although its original does not start with the character. */
  lemma MarkAhead(s: string, ch: char, x: char)
    requires s != "" && s[0] != ch && ch != '_' && x != '_' && ch != x
    ensures Mark(x) <= Encode(s, ch, x) <==> Ahead(s, "_", x, ['_', ch])
  {
    EncodeStep(s, ch, x);
    if |s| > 1 {
      EncodeStep(s[1..], ch, x);
      assert s[1..][1..] == s[2..];
      if |s| > 2 {
        EncodeStep(s[2..], ch, x);
      }
    }
    MarkIsAhead(Encode(s, ch, x), x);
  }

  lemma MarkIsAhead(s: string, x: char)
    ensures Mark(x) <= s <==> Ahead(s, "_", x, "_")
  {
    if Ahead(s, "_", x, "_") {
      assert s[..3] == Mark(x);
    }
  }

  /** Spelling a character out and back gives the string back exactly when nothing in it looks like the
      spelling. */
  lemma {:induction false} MarkRoundTrip(s: string, ch: char, x: char)
    requires ch != '_' && x != '_' && ch != x
    ensures Decode(Encode(s, ch, x), ch, x) == s <==> !Triple(s, "_", x, ['_', ch])
  {
    if s == "" {
    } else {
      var e, rest := Encode(s, ch, x), s[1..];
      EncodeStep(s, ch, x);
      MarkRoundTrip(rest, ch, x);
      TripleTail(s, "_", x, ['_', ch]);
      if s[0] == ch {
        assert e[3..] == Encode(rest, ch, x);
      } else {
        MarkAhead(s, ch, x);
        assert e[1..] == Encode(rest, ch, x);
      }
    }
  }

  /** The other way round nothing is lost: a string without the character survives. */
  lemma {:induction false} MarkBack(s: string, ch: char, x: char)
    requires ch !in s
    ensures Encode(Decode(s, ch, x), ch, x) == s
    decreases |s|
  {
    if s == "" {
    } else {
      var d := Decode(s, ch, x);
      EncodeStep(d, ch, x);
      if Mark(x) <= s {
        MarkBack(s[3..], ch, x);
        assert s == Mark(x) + s[3..] && d[1..] == Decode(s[3..], ch, x);
      } else {
        MarkBack(s[1..], ch, x);
        assert s == [s[0]] + s[1..] && d[1..] == Decode(s[1..], ch, x);
      }
    }
  }

  lemma {:induction false} EncodeRemoves(s: string, ch: char, x: char)
    requires ch != '_' && ch != x
    ensures ch !in Encode(s, ch, x)
  {
    if s == "" {
    } else {
      EncodeStep(s, ch, x);
      EncodeRemoves(s[1..], ch, x);
    }
  }

  // ---------------------------------------------------------------------------
  // Slash and at sign together
  // ---------------------------------------------------------------------------

  function At(topic: string): string { Encode(topic, '@', 'a') }

  /** The two replacements commute. */
  lemma {:induction false} EncodingsCommute(topic: string)
    ensures TopicToFilename(topic) == Encode(At(topic), '/', 'b')
  {
    if topic == "" {
    } else {
      var rest := topic[1..];
      EncodingsCommute(rest);
      EncodeStep(topic, '/', 'b');
      EncodeStep(topic, '@', 'a');
      StepOver(Encode(rest, '/', 'b'), if topic[0] == '/' then Mark('b') else [topic[0]], '@', 'a');
      StepOver(At(rest), if topic[0] == '@' then Mark('a') else [topic[0]], '/', 'b');
      StepOver("", Mark('b'), '@', 'a');
      StepOver("", Mark('a'), '/', 'b');
    }
  }

  lemma {:induction false} StepOver(rest: string, s: string, ch: char, x: char)
    ensures Encode(s + rest, ch, x) == Encode(s, ch, x) + Encode(rest, ch, x)
    ensures ch !in s ==> Encode(s, ch, x) == s
    decreases |s|
  {
    if s == "" {
      assert s + rest == rest;
    } else {
      StepOver(rest, s[1..], ch, x);
      EncodeStep(s, ch, x);
      EncodeStep(s + rest, ch, x);
      assert (s + rest)[1..] == s[1..] + rest;
    }
  }

  /** The sequences that look like an encoded slash once at signs are spelled out. */
  lemma {:induction false} SlashMarksAfterAt(topic: string)
    ensures Triple(At(topic), "_", 'b', "_/") <==> Triple(topic, "_@", 'b', "_@/")
  {
    if topic == "" {
    } else {
      var e, rest := At(topic), topic[1..];
      EncodeStep(topic, '@', 'a');
      SlashMarksAfterAt(rest);
      BAhead(rest);
      TripleTail(topic, "_@", 'b', "_@/");
      TripleTail(e, "_", 'b', "_/");
      if topic[0] == '@' {
        TripleTail(e[1..], "_", 'b', "_/");
        TripleTail(e[2..], "_", 'b', "_/");
        assert e[1..][1..] == e[2..] == "_" + At(rest) && e[2..][1..] == At(rest);
      } else {
        assert e[1..] == At(rest);
      }
    }
  }

  lemma BAhead(topic: string)
    ensures |At(topic)| >= 2 && At(topic)[0] == 'b' && At(topic)[1] in "_/" <==>
            |topic| >= 2 && topic[0] == 'b' && topic[1] in "_@/"
  {
    if topic != "" {
      EncodeStep(topic, '@', 'a');
      if |topic| > 1 { EncodeStep(topic[1..], '@', 'a'); }
    }
  }

  lemma DecodeFilename(topic: string)
    ensures FilenameToTopic(TopicToFilename(topic)) == Decode(Decode(TopicToFilename(topic), '/', 'b'), '@', 'a')
    ensures '@' !in TopicToFilename(topic) && '/' !in TopicToFilename(topic)
    ensures '@' !in Decode(TopicToFilename(topic), '/', 'b')
  {
    assert Mark('b') == "_b_" && Mark('a') == "_a_";
    EncodingsCommute(topic);
    EncodeRemoves(At(topic), '/', 'b');
    EncodeRemoves(topic, '@', 'a');
    ReplaceKeepsOut(At(topic), "/", Mark('b'), '@');
    ReplaceKeepsOut(TopicToFilename(topic), Mark('b'), "/", '@');
  }

  /** A name survives the encoding and its decoding exactly when it is faithful. */
  lemma FilenameRoundTrip(topic: string)
    ensures FilenameToTopic(TopicToFilename(topic)) == topic <==> Faithful(topic)
  {
    var slashes := Decode(TopicToFilename(topic), '/', 'b');
    DecodeFilename(topic);
    EncodingsCommute(topic);
    MarkRoundTrip(At(topic), '/', 'b');
    SlashMarksAfterAt(topic);
    MarkRoundTrip(topic, '@', 'a');
    MarkBack(slashes, '@', 'a');
    assert ['_', '/'] == "_/" && ['_', '@'] == "_@";
  }

  /** Startup recovery decodes a log file's name like the storage does. */
  lemma RecoveryDecodes(topic: string)
    ensures RecoveredName(TopicToFilename(topic)) == FilenameToTopic(TopicToFilename(topic))
  {
    var e := TopicToFilename(topic);
    DecodeFilename(topic);
    if !Contains(e, "_b_") && !Contains(e, "_a_") {
      ReplaceAbsent(e, "_b_", "/");
      ReplaceAbsent(e, "_a_", "@");
      NoCharNoPattern(e, '@');
      ReplaceAbsent(e, "@", "/");
    }
  }

  /** Startup recovery of a topic's log file yields that topic exactly when its name is faithful; whatever it
      yields, it is a name for the same file. */
  lemma RecoveryRoundTrip(topic: string)
    ensures RecoveredName(TopicToFilename(topic)) == topic <==> Faithful(topic)
    ensures TopicToFilename(RecoveredName(TopicToFilename(topic))) == TopicToFilename(topic)
  {
    var e := TopicToFilename(topic);
    RecoveryDecodes(topic);
    FilenameRoundTrip(topic);
    DecodeFilename(topic);
    EncodingsCommute(FilenameToTopic(e));
    MarkBack(Decode(e, '/', 'b'), '@', 'a');
    MarkBack(e, '/', 'b');
  }

  /** Two faithful names never share a log file. */
  lemma NoSharedFiles(a: string, b: string)
    requires Faithful(a) && Faithful(b) && TopicToFilename(a) == TopicToFilename(b)
    ensures a == b
  {
    FilenameRoundTrip(a);
    FilenameRoundTrip(b);
  }

  /** A name that is not faithful always has another one for the same file. */
  lemma SharedFiles(topic: string) returns (other: string)
    requires !Faithful(topic)
    ensures other != topic && TopicToFilename(other) == TopicToFilename(topic)
  {
    other := RecoveredName(TopicToFilename(topic));
    RecoveryRoundTrip(topic);
  }

  /** For the names a client may use, three sequences are to be avoided. */
  lemma FaithfulOfValid(topic: string)
    requires ValidTopic(topic)
    ensures Faithful(topic) <==> !Contains(topic, "_b_") && !Contains(topic, "_b/") && !Contains(topic, "_a_")
  {
    ContainsTriple(topic, '_', 'b', '_');
    ContainsTriple(topic, '_', 'b', '/');
    ContainsTriple(topic, '_', 'a', '_');
    forall i | 0 <= i < |topic|
      ensures topic[i] != '@'
    {
      assert topic[i] in topic;
    }
  }

  lemma ContainsTriple(s: string, a: char, b: char, c: char)
    ensures Contains(s, [a, b, c]) <==> exists i | 0 <= i < |s| - 2 :: s[i] == a && s[i + 1] == b && s[i + 2] == c
  {
    if Contains(s, [a, b, c]) {
      var i :| 0 <= i <= |s| && [a, b, c] <= s[i..];
      assert s[i..][0] == a && s[i..][1] == b && s[i..][2] == c;
    }
    if i :| 0 <= i < |s| - 2 && s[i] == a && s[i + 1] == b && s[i + 2] == c {
      assert s[i..][..3] == [a, b, c];
    }
  }

  /** A legacy file name without an at sign is the topic's own. */
  lemma SameLegacyName(topic: string)
    requires '@' !in ReplaceAll(topic, "/", "@")
    ensures ReplaceAll(topic, "/", "@") == TopicToFilename(topic) == topic
  {
    LegacyKeepsPlain(topic);
    NoCharNoPattern(topic, '/');
    ReplaceAbsent(topic, "/", "_b_");
    NoCharNoPattern(topic, '@');
    ReplaceAbsent(topic, "@", "_a_");
  }

  lemma {:induction false} LegacyKeepsPlain(topic: string)
    requires '@' !in ReplaceAll(topic, "/", "@")
    ensures '/' !in topic && '@' !in topic && ReplaceAll(topic, "/", "@") == topic
  {
    if topic == "" {
    } else {
      var legacy, rest := ReplaceAll(topic, "/", "@"), ReplaceAll(topic[1..], "/", "@");
      assert legacy == [if topic[0] == '/' then '@' else topic[0]] + rest;
      assert legacy[0] in legacy && forall ch | ch in rest :: ch in legacy;
      LegacyKeepsPlain(topic[1..]);
      assert topic == [topic[0]] + topic[1..];
    }
  }

  // ---------------------------------------------------------------------------
  // Safe and legacy names
  // ---------------------------------------------------------------------------

  lemma PairAhead(s: string, c: char)
    ensures [c, c] <= s <==> |s| >= 2 && s[0] == c && s[1] == c
  {
    if |s| >= 2 && s[0] == c && s[1] == c {
      assert s[..2] == [c, c];
    }
  }

  lemma {:induction false} EncodeKeepsPairs(s: string, ch: char, x: char, c: char)
    requires c != ch && c != '_' && c != x
    ensures Contains(Encode(s, ch, x), [c, c]) <==> Contains(s, [c, c])
  {
    if s == "" {
    } else {
      var e, rest := Encode(s, ch, x), s[1..];
      EncodeStep(s, ch, x);
      EncodeKeepsPairs(rest, ch, x, c);
      ContainsTail(s, [c, c]);
      ContainsTail(e, [c, c]);
      PairAhead(s, c);
      PairAhead(e, c);
      if s[0] == ch {
        ContainsTail(e[1..], [c, c]);
        ContainsTail(e[2..], [c, c]);
        PairAhead(e[1..], c);
        PairAhead(e[2..], c);
        assert e[1..][1..] == e[2..] && e[2..][1..] == e[3..] == Encode(rest, ch, x);
      } else {
        assert e[1..] == Encode(rest, ch, x);
        if rest != "" { EncodeStep(rest, ch, x); }
      }
    }
  }

  lemma {:induction false} EncodeKeepsChars(s: string, ch: char, x: char, c: char)
    requires c != ch && c != '_' && c != x
    ensures c in Encode(s, ch, x) <==> c in s
  {
    if s == "" {
    } else {
      EncodeStep(s, ch, x);
      EncodeKeepsChars(s[1..], ch, x, c);
      assert s == [s[0]] + s[1..];
    }
  }

  lemma ContainsChar(s: string, c: char)
    ensures Contains(s, [c]) <==> c in s
  {
    if c in s {
      var i :| 0 <= i < |s| && s[i] == c;
      assert s[i..][..1] == [c];
    } else {
      NoCharNoPattern(s, c);
    }
  }

  /** The storage accepts exactly the names that start with neither separator and whose file name can only be a
      plain one: no parent directory, no separator of any kind. */
  lemma SafeMeansPlainFile(topic: string)
    ensures var file := TopicToFilename(topic);
            IsSafePath(topic) <==>
              && (topic != "" ==> topic[0] != '/' && topic[0] != '@')
              && !Contains(file, "..") && '\\' !in file && '/' !in file
  {
    EncodingsCommute(topic);
    EncodeKeepsPairs(topic, '@', 'a', '.');
    EncodeKeepsPairs(At(topic), '/', 'b', '.');
    EncodeKeepsChars(topic, '@', 'a', '\\');
    EncodeKeepsChars(At(topic), '/', 'b', '\\');
    EncodeRemoves(At(topic), '/', 'b');
    ContainsChar(topic, '\\');
    assert ['.', '.'] == ".." && ['\\'] == "\\";
    if topic != "" {
      assert "/" <= topic <==> topic[0] == '/';
      assert "@" <= topic <==> topic[0] == '@';
    }
  }

  lemma {:induction false} LegacyBack(topic: string)
    requires '@' !in topic
    ensures ReplaceAll(ReplaceAll(topic, "/", "@"), "@", "/") == topic
  {
    if topic == "" {
    } else {
      var legacy := ReplaceAll(topic, "/", "@");
      assert legacy[0] == if topic[0] == '/' then '@' else topic[0];
      assert legacy[1..] == ReplaceAll(topic[1..], "/", "@");
      LegacyBack(topic[1..]);
      assert topic == [topic[0]] + topic[1..];
    }
  }

  lemma {:induction false} ReplaceKeepsChar(s: string, pattern: string, with: string, ch: char)
    requires pattern != "" && ch in s && ch !in pattern
    ensures ch in ReplaceAll(s, pattern, with)
    decreases |s|
  {
    if pattern <= s {
      assert s == pattern + s[|pattern|..];
      ReplaceKeepsChar(s[|pattern|..], pattern, with, ch);
    } else if s[0] != ch {
      ReplaceKeepsChar(s[1..], pattern, with, ch);
    }
  }

  lemma {:induction false} LegacyHasAt(topic: string)
    requires '/' in topic
    ensures '@' in ReplaceAll(topic, "/", "@")
  {
    if topic[0] != '/' {
      LegacyHasAt(topic[1..]);
    }
  }

  /** Startup recovers a topic with slashes from its legacy file name exactly when that name contains no mark. */
  lemma LegacyRoundTrip(topic: string)
    requires '@' !in topic && '/' in topic
    ensures var legacy := ReplaceAll(topic, "/", "@");
            RecoveredName(legacy) == topic <==> !Contains(legacy, "_b_") && !Contains(legacy, "_a_")
  {
    var legacy := ReplaceAll(topic, "/", "@");
    LegacyBack(topic);
    LegacyHasAt(topic);
    ReplaceKeepsChar(legacy, "_b_", "/", '@');
    ReplaceKeepsChar(ReplaceAll(legacy, "_b_", "/"), "_a_", "@", '@');
  }
}
