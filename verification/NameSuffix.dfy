/** Container-name clean-up: commands/_util.py. */
module NameSuffix {

  const KINDS: seq<string> := ["pod", "service", "ingress"]

  /** What `isdigit` accepts beyond the ASCII digits does not matter, as long as dashes and letters are not among it. */
  ghost predicate DigitTest(digit: char -> bool) {
    && !digit('-')
    && (forall c :: '0' <= c <= '9' ==> digit(c))
    && (forall c :: 'a' <= c <= 'z' ==> !digit(c))
  }

  /** The source's `str.isdigit`: all digits and not empty. */
  predicate IsDigits(digit: char -> bool, s: string) {
    s != "" && forall i :: 0 <= i < |s| ==> digit(s[i])
  }

  predicate NoDash(s: string) {
    forall i :: 0 <= i < |s| ==> s[i] != '-'
  }

  /** `name.split("-")` */
  function Split(s: string): (parts: seq<string>)
    ensures |parts| >= 1
  {
    if s == "" then [""]
    else
      var rest := Split(s[1..]);
      if s[0] == '-' then [""] + rest else [[s[0]] + rest[0]] + rest[1..]
  }

  /** `"-".join(parts)` */
  function Join(parts: seq<string>): string {
    if parts == [] then ""
    else if |parts| == 1 then parts[0]
    else parts[0] + "-" + Join(parts[1..])
  }

  /** The last part is cut off, with the word before it or without. */
  predicate HasSuffix(digit: char -> bool, parts: seq<string>) {
    parts != [] && ((|parts| >= 2 && IsDigits(digit, parts[|parts| - 1])) || parts[|parts| - 1] in KINDS)
  }

  /** How many parts are kept. */
  function Kept(digit: char -> bool, parts: seq<string>): (k: nat)
    requires parts != []
    ensures k <= |parts| && (k < |parts| <==> HasSuffix(digit, parts))
  {
    var n := |parts|;
    if n >= 2 && IsDigits(digit, parts[n - 1]) then n - 2
    else if parts[n - 1] in KINDS then n - 1
    else n
  }

  /** `strip_container_maker_suffix` */
  function Strip(digit: char -> bool, name: string): string {
    var parts := Split(name);
    var k := Kept(digit, parts);
    if k < |parts| then Join(parts[..k]) else name
  }

  lemma {:induction false} JoinSplit(s: string)
    ensures Join(Split(s)) == s
  {
    if s != "" {
      JoinSplit(s[1..]);
      var rest := Split(s[1..]);
      assert s == [s[0]] + s[1..];
      if s[0] == '-' {
        assert ([""] + rest)[1..] == rest;
      } else if |rest| > 1 {
        assert Split(s)[1..] == rest[1..];
      }
    }
  }

  /** Splitting distributes over a dash. */
  lemma {:induction false} SplitAtDash(a: string, b: string)
    ensures Split(a + "-" + b) == Split(a) + Split(b)
  {
    var s := a + "-" + b;
    if a == "" {
      assert s[1..] == b;
    } else {
      assert s[1..] == a[1..] + "-" + b;
      SplitAtDash(a[1..], b);
    }
  }

  lemma {:induction false} SplitNoDash(s: string)
    requires NoDash(s)
    ensures Split(s) == [s]
  {
    if s != "" {
      SplitNoDash(s[1..]);
      assert s == [s[0]] + s[1..];
    }
  }

  lemma {:induction false} JoinPrefix(parts: seq<string>, k: nat)
    requires k <= |parts|
    ensures Join(parts[..k]) <= Join(parts)
  {
    if 2 <= |parts| && 1 <= k {
      JoinPrefix(parts[1..], k - 1);
      assert parts[1..][..k - 1] == parts[..k][1..];
      var head, tail := Join(parts[..k][1..]), Join(parts[1..]);
      if k >= 2 {
        assert parts[0] + "-" + head <= parts[0] + "-" + tail;
      }
    } else if k == |parts| {
      assert parts[..k] == parts;
    }
  }

  lemma SplitThreeParts(name: string, word: string, digits: string)
    requires NoDash(word) && NoDash(digits)
    ensures Split(name + "-" + word + "-" + digits) == Split(name) + [word, digits]
  {
    SplitAtDash(name + "-" + word, digits);
    SplitAtDash(name, word);
    SplitNoDash(word);
    SplitNoDash(digits);
  }

  lemma DigitsHaveNoDash(digit: char -> bool, digits: string)
    requires DigitTest(digit) && IsDigits(digit, digits)
    ensures NoDash(digits)
  {
  }

  /** Cleaning cuts a word and a number off whatever they follow. */
  lemma CutsTwoParts(digit: char -> bool, name: string, full: string, word: string, digits: string)
    requires Split(full) == Split(name) + [word, digits] && IsDigits(digit, digits)
    ensures Strip(digit, full) == name
  {
    assert Split(full)[..|Split(full)| - 2] == Split(name);
    JoinSplit(name);
  }

  /** Cleaning undoes the naming `<name>-pod-<timestamp>`; indeed the word before the digits may be any dash-free one. */
  lemma StripInvertsTimestamp(digit: char -> bool, name: string, word: string, digits: string)
    requires DigitTest(digit) && IsDigits(digit, digits) && NoDash(word)
    ensures Strip(digit, name + "-" + word + "-" + digits) == name
  {
    DigitsHaveNoDash(digit, digits);
    SplitThreeParts(name, word, digits);
    CutsTwoParts(digit, name, name + "-" + word + "-" + digits, word, digits);
  }

  lemma KindsAreWords(digit: char -> bool, kind: string)
    requires DigitTest(digit) && (kind == "pod" || kind == "service" || kind == "ingress")
    ensures NoDash(kind) && !IsDigits(digit, kind) && kind != ""
  {
    assert 'a' <= kind[0] <= 'z';
  }

  /** Cleaning undoes the naming `<name>-pod`, `<name>-service`, `<name>-ingress`. */
  lemma StripInvertsKind(digit: char -> bool, name: string, kind: string)
    requires DigitTest(digit) && (kind == "pod" || kind == "service" || kind == "ingress")
    ensures Strip(digit, name + "-" + kind) == name
  {
    KindsAreWords(digit, kind);
    SplitAtDash(name, kind);
    SplitNoDash(kind);
    var parts := Split(name + "-" + kind);
    assert parts[..|parts| - 1] == Split(name);
    JoinSplit(name);
  }

  /** The cleaned name is a prefix of the input, whatever the input is. */
  lemma StripIsPrefix(digit: char -> bool, name: string)
    ensures Strip(digit, name) <= name
  {
    var parts := Split(name);
    JoinSplit(name);
    JoinPrefix(parts, Kept(digit, parts));
  }

  lemma StripKeepsAllExactly(digit: char -> bool, name: string)
    ensures Strip(digit, name) == name <==> !HasSuffix(digit, Split(name))
  {
    if HasSuffix(digit, Split(name)) {
      var parts := Split(name);
      JoinSplit(name);
      JoinGrows(parts, Kept(digit, parts));
    }
  }

  /**
    Exactly which names are left alone: those whose last dash-separated part is neither a kind nor
    an all-digit part with something before it. So a user name ending in `-<digits>` is cut.
   */
  lemma StripLeavesAloneExactly(digit: char -> bool, name: string)
    ensures var parts := Split(name);
            var last := parts[|parts| - 1];
            Strip(digit, name) == name <==>
            && last != "pod" && last != "service" && last != "ingress"
            && (|parts| >= 2 ==> last == "" || exists i :: 0 <= i < |last| && !digit(last[i]))
  {
    StripKeepsAllExactly(digit, name);
  }

  lemma {:induction false} JoinGrows(parts: seq<string>, k: nat)
    requires k < |parts| && parts[|parts| - 1] != ""
    ensures |Join(parts[..k])| < |Join(parts)|
  {
    if 2 <= |parts| {
      if 1 <= k {
        assert parts[1..][..k - 1] == parts[..k][1..];
        JoinGrows(parts[1..], k - 1);
      }
    }
  }

  lemma {:induction false} PartsHaveNoDash(s: string)
    ensures forall i :: 0 <= i < |Split(s)| ==> NoDash(Split(s)[i])
  {
    if s != "" {
      PartsHaveNoDash(s[1..]);
    }
  }

  /** Joining and splitting are inverse in this direction too, for any parts that a name can have. */
  lemma {:induction false} SplitJoin(parts: seq<string>)
    requires parts != [] && forall i :: 0 <= i < |parts| ==> NoDash(parts[i])
    ensures Split(Join(parts)) == parts
  {
    SplitNoDash(parts[0]);
    if |parts| >= 2 {
      SplitJoin(parts[1..]);
      SplitAtDash(parts[0], Join(parts[1..]));
    }
  }

  /**
    Exactly when cleaning twice is cleaning once: when the parts that are kept of the name do not
    end in a suffix themselves.
   */
  lemma StripIdempotentExactly(digit: char -> bool, name: string)
    ensures var parts := Split(name);
            Strip(digit, Strip(digit, name)) == Strip(digit, name) <==> !HasSuffix(digit, parts[..Kept(digit, parts)])
  {
    var parts := Split(name);
    var k := Kept(digit, parts);
    StripKeepsAllExactly(digit, name);
    StripKeepsAllExactly(digit, Strip(digit, name));
    if k == |parts| {
      assert parts[..k] == parts;
    } else if 0 < k {
      PartsHaveNoDash(name);
      SplitJoin(parts[..k]);
    }
  }

  /** So it is not idempotent: `web-1-pod-2` becomes `web-1` and then nothing. */
  lemma StripIsNotIdempotent(digit: char -> bool, word: string, number: string, timestamp: string)
    requires DigitTest(digit) && NoDash(word) && word != "" && IsDigits(digit, number) && IsDigits(digit, timestamp)
    ensures var name := word + "-" + number + "-" + "pod" + "-" + timestamp;
            Strip(digit, name) == word + "-" + number && Strip(digit, Strip(digit, name)) == "" != Strip(digit, name)
  {
    StripInvertsTimestamp(digit, word + "-" + number, "pod", timestamp);
    DigitsHaveNoDash(digit, number);
    SplitAtDash(word, number);
    SplitNoDash(word);
    SplitNoDash(number);
  }
}
