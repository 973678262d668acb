/** `generateSessionTitle`, written identically in src/lib/ai/gemini.ts and
    src/lib/ai/gemini-new.ts: the first six space-separated segments of the
    first message, cut to 50 characters with an ellipsis, or a fixed title when
    what is left is shorter than 10 characters. */
module Title {

  const WordLimit: nat := 6
  const MaxTitleLength: nat := 50
  const TruncatedLength: nat := 47
  const Ellipsis: string := "..."
  const MinTitleLength: nat := 10
  const FallbackTitle: string := "Career Discussion"

  /** Position of the first `' '` in `s`, or `|s|` when there is none. */
  function IndexOfSpace(s: string): (i: nat)
    ensures i <= |s|
    ensures i < |s| ==> s[i] == ' '
  {
    if s == [] || s[0] == ' ' then 0 else 1 + IndexOfSpace(s[1..])
  }

  /** No space comes before the one `IndexOfSpace` finds. */
  lemma {:induction false} BeforeFirstSpace(s: string)
    ensures ' ' !in s[..IndexOfSpace(s)]
  {
    if s != [] && s[0] != ' ' {
      BeforeFirstSpace(s[1..]);
      assert s[..IndexOfSpace(s)] == [s[0]] + s[1..][..IndexOfSpace(s[1..])];
    }
  }

  /** `s.split(" ")`: the segments between single spaces, empty ones included,
      so a string with n spaces has n + 1 segments. */
  function Split(s: string): (parts: seq<string>)
    ensures |parts| >= 1
    decreases |s|
  {
    var i := IndexOfSpace(s);
    if i == |s| then [s] else [s[..i]] + Split(s[i + 1..])
  }

  /** No segment holds a space. */
  lemma {:induction false} SplitHasNoSpaces(s: string)
    ensures forall p :: p in Split(s) ==> ' ' !in p
    decreases |s|
  {
    var i := IndexOfSpace(s);
    if i < |s| {
      SplitHasNoSpaces(s[i + 1..]);
      BeforeFirstSpace(s);
      assert Split(s) == [s[..i]] + Split(s[i + 1..]);
    } else {
      BeforeFirstSpace(s);
      assert s[..i] == s;
    }
  }

  /** `parts.join(" ")`. */
  function Join(parts: seq<string>): (r: string)
    ensures |parts| >= 1 ==> parts[0] <= r
  {
    if |parts| == 0 then ""
    else if |parts| == 1 then parts[0]
    else parts[0] + " " + Join(parts[1..])
  }

  /** `firstMessage.split(" ").slice(0, 6).join(" ")`. */
  function FirstWords(firstMessage: string): (words: string)
    ensures words <= firstMessage
  {
    var parts := Split(firstMessage);
    var k := if |parts| < WordLimit then |parts| else WordLimit;
    JoinedSegmentsArePrefix(firstMessage, k);
    Join(parts[..k])
  }

  function GenerateSessionTitle(firstMessage: string): (title: string)
    ensures MinTitleLength <= |title| <= MaxTitleLength
  {
    var words := FirstWords(firstMessage);
    var title := if |words| > MaxTitleLength then words[..TruncatedLength] + Ellipsis else words;
    if |title| < MinTitleLength then FallbackTitle else title
  }

  /** Splitting and joining again gives back the input. */
  lemma {:induction false} JoinSplit(s: string)
    ensures Join(Split(s)) == s
    decreases |s|
  {
    var i := IndexOfSpace(s);
    if i < |s| {
      var rest := s[i + 1..];
      JoinSplit(rest);
      assert Split(s) == [s[..i]] + Split(rest);
      JoinCons(s[..i], Split(rest));
      assert s == s[..i] + " " + rest;
    }
  }

  lemma TakeCons<T>(x: T, xs: seq<T>, k: nat)
    requires 1 <= k <= |xs| + 1
    ensures ([x] + xs)[..k] == [x] + xs[..k - 1]
  {
  }

  lemma JoinCons(head: string, tail: seq<string>)
    requires |tail| >= 1
    ensures Join([head] + tail) == head + " " + Join(tail)
  {
    assert ([head] + tail)[1..] == tail;
  }

  lemma PrefixExtend(p: string, q: string, r: string)
    requires q <= r
    ensures p + q <= p + r
  {
    assert (p + r)[..|p + q|] == p + r[..|q|];
  }

  /** Joining the first k segments gives a prefix of the input. */
  lemma {:induction false} JoinedSegmentsArePrefix(s: string, k: nat)
    requires 1 <= k <= |Split(s)|
    ensures Join(Split(s)[..k]) <= s
    decreases |s|
  {
    var i := IndexOfSpace(s);
    if i == |s| {
      assert Split(s)[..k] == [s];
    } else {
      var head, rest := s[..i], s[i + 1..];
      assert Split(s) == [head] + Split(rest);
      if k == 1 {
        assert Split(s)[..1] == [head];
        assert s[..|head|] == head;
      } else {
        JoinedSegmentsArePrefix(rest, k - 1);
        PrefixStep(s, k);
      }
    }
  }

  /** The inductive step: the first segment, a space, and a prefix of the
      rest make a prefix of the whole. */
  lemma PrefixStep(s: string, k: nat)
    requires IndexOfSpace(s) < |s|
    requires 2 <= k <= |Split(s)|
    requires |Split(s[IndexOfSpace(s) + 1..])| >= k - 1
    requires Join(Split(s[IndexOfSpace(s) + 1..])[..k - 1]) <= s[IndexOfSpace(s) + 1..]
    ensures Join(Split(s)[..k]) <= s
  {
    var i := IndexOfSpace(s);
    var head, rest := s[..i], s[i + 1..];
    var tail := Split(rest)[..k - 1];
    assert Split(s) == [head] + Split(rest);
    TakeCons(head, Split(rest), k);
    JoinCons(head, tail);
    PrefixExtend(head + " ", Join(tail), rest);
    assert s == head + " " + rest;
  }

  /** Number of `' '` characters in `s`. */
  function Spaces(s: string): nat {
    if s == [] then 0 else (if s[0] == ' ' then 1 else 0) + Spaces(s[1..])
  }

  lemma {:induction false} SpacesAppend(a: string, b: string)
    ensures Spaces(a + b) == Spaces(a) + Spaces(b)
  {
    if a == [] {
      assert a + b == b;
    } else {
      assert (a + b)[0] == a[0];
      assert (a + b)[1..] == a[1..] + b;
      SpacesAppend(a[1..], b);
    }
  }

  lemma {:induction false} NoSpaces(s: string)
    requires ' ' !in s
    ensures Spaces(s) == 0
  {
    if s != [] {
      assert s[0] in s;
      assert forall c :: c in s[1..] ==> c in s;
      NoSpaces(s[1..]);
    }
  }

  /** Joining n space-free segments puts exactly n - 1 spaces between them. */
  lemma {:induction false} JoinSpaces(parts: seq<string>)
    requires |parts| >= 1
    requires forall p :: p in parts ==> ' ' !in p
    ensures Spaces(Join(parts)) == |parts| - 1
  {
    assert parts[0] in parts;
    NoSpaces(parts[0]);
    if |parts| > 1 {
      assert forall p :: p in parts[1..] ==> p in parts;
      JoinSpaces(parts[1..]);
      SpacesAppend(parts[0], " ");
      SpacesAppend(parts[0] + " ", Join(parts[1..]));
      assert Spaces(" ") == 1 by { assert " "[1..] == ""; }
    }
  }

  /** At most six words survive: the joined segments hold at most five spaces,
      and exactly as many as the message when it has fewer than six segments. */
  lemma FirstWordsSpaces(firstMessage: string)
    ensures Spaces(FirstWords(firstMessage)) <= WordLimit - 1
    ensures |Split(firstMessage)| <= WordLimit ==> FirstWords(firstMessage) == firstMessage
  {
    var parts := Split(firstMessage);
    var taken := parts[..if |parts| < WordLimit then |parts| else WordLimit];
    SplitHasNoSpaces(firstMessage);
    assert forall p :: p in taken ==> p in parts;
    JoinSpaces(taken);
    if |parts| <= WordLimit {
      assert taken == parts;
      JoinSplit(firstMessage);
    }
  }

  /** The three branches of the title generator, each tied to the first message. */
  lemma TitleCases(firstMessage: string)
    ensures var words := FirstWords(firstMessage);
            var title := GenerateSessionTitle(firstMessage);
            && (MinTitleLength <= |words| <= MaxTitleLength ==> title == words && title <= firstMessage)
            && (|words| > MaxTitleLength ==>
                  && title == words[..TruncatedLength] + Ellipsis
                  && |title| == MaxTitleLength
                  && title[..TruncatedLength] <= firstMessage)
            && (|words| < MinTitleLength ==> title == FallbackTitle)
  {
  }

  /** Every title either is a prefix of the message, is a prefix of it followed
      by the ellipsis, or is the fallback title. */
  lemma TitleComesFromMessage(firstMessage: string)
    ensures var title := GenerateSessionTitle(firstMessage);
            || title <= firstMessage
            || (|title| == MaxTitleLength && title[..TruncatedLength] <= firstMessage && title[TruncatedLength..] == Ellipsis)
            || title == FallbackTitle
  {
    TitleCases(firstMessage);
  }
}
