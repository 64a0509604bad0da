/** Topic and filter rules of `mqtt/mod.rs`, after sections 4.7.1 and 4.7.2 of MQTT Version 3.1.1.
    A `string` stands for its UTF-8 bytes; every character these rules look at is one byte. */
module Topics {
  import opened Common
  import opened Text

  const TOPIC_MAX_LEN := 65535

  datatype Verdict = Accepted | Empty | TooLong | HasNul | PlusNotWholeLevel | HashNotLastLevel

  function ValidateTopic(topic: string): Verdict {
    if topic == "" then Empty
    else if |topic| > TOPIC_MAX_LEN then TooLong
    else if '\0' in topic then HasNul
    else Accepted
  }

  predicate PlusInPlace(s: string, i: nat)
    requires i < |s|
  {
    (i == 0 || s[i - 1] == '/') && (i + 1 == |s| || s[i + 1] == '/')
  }

  predicate HashInPlace(s: string, i: nat)
    requires i < |s|
  {
    i + 1 == |s| && (i == 0 || s[i - 1] == '/')
  }

  /** What the byte at `i` is rejected for, if it is. */
  function ByteVerdict(s: string, i: nat): Verdict
    requires i < |s|
  {
    if s[i] == '+' && !PlusInPlace(s, i) then PlusNotWholeLevel
    else if s[i] == '#' && !HashInPlace(s, i) then HashNotLastLevel
    else Accepted
  }

  /** The verdict on the first byte at or after `i` that has one. */
  function ScanFrom(s: string, i: nat): Verdict
    requires i <= |s|
    decreases |s| - i
  {
    if i == |s| then Accepted
    else if ByteVerdict(s, i) != Accepted then ByteVerdict(s, i)
    else ScanFrom(s, i + 1)
  }

  function FilterVerdict(filter: string): Verdict {
    if ValidateTopic(filter) != Accepted then ValidateTopic(filter) else ScanFrom(filter, 0)
  }

  method ValidateSubscribeFilter(filter: string) returns (v: Verdict)
    ensures v == FilterVerdict(filter)
  {
    v := ValidateTopic(filter);
    if v != Accepted {
      return;
    }
    var i := 0;
    while i < |filter|
      invariant 0 <= i <= |filter| && ScanFrom(filter, 0) == ScanFrom(filter, i)
    {
      if filter[i] == '+' {
        var beforeOk := i == 0 || filter[i - 1] == '/';
        var afterOk := i + 1 == |filter| || filter[i + 1] == '/';
        if !beforeOk || !afterOk {
          return PlusNotWholeLevel;
        }
      } else if filter[i] == '#' {
        var isLast := i + 1 == |filter|;
        var beforeOk := i == 0 || filter[i - 1] == '/';
        if !isLast || !beforeOk {
          return HashNotLastLevel;
        }
      }
      i := i + 1;
    }
    return Accepted;
  }

  // ----- the rule of section 4.7.1, on levels -----

  /** `+` only as a whole level, `#` only as the whole last level. */
  predicate LevelRule(levels: seq<string>) {
    forall k :: 0 <= k < |levels| ==>
      && ('+' in levels[k] ==> levels[k] == "+")
      && ('#' in levels[k] ==> levels[k] == "#" && k == |levels| - 1)
  }

  predicate InPlace(s: string) { forall i :: 0 <= i < |s| ==> ByteVerdict(s, i) == Accepted }

  lemma {:induction false} ScanIsPointwise(s: string, i: nat)
    requires i <= |s|
    ensures ScanFrom(s, i) == Accepted <==> forall j :: i <= j < |s| ==> ByteVerdict(s, j) == Accepted
    decreases |s| - i
  {
    if i < |s| {
      ScanIsPointwise(s, i + 1);
    }
  }

  function LastLevel(s: string): string {
    var levels := Split(s, '/');
    levels[|levels| - 1]
  }

  /** The last level is what follows the last separator. */
  lemma {:induction false} LastLevelIsSuffix(s: string)
    ensures |LastLevel(s)| <= |s| && LastLevel(s) == s[|s| - |LastLevel(s)|..] && '/' !in LastLevel(s)
    ensures |LastLevel(s)| < |s| ==> s[|s| - |LastLevel(s)| - 1] == '/'
  {
    if s != "" {
      LastLevelIsSuffix(s[..|s| - 1]);
    }
  }

  predicate NoHash(s: string) { '#' !in s }

  predicate NoneHasHash(levels: seq<string>) { forall k :: 0 <= k < |levels| ==> NoHash(levels[k]) }

  lemma NoneHasHashSnoc(levels: seq<string>, last: string)
    ensures NoneHasHash(levels + [last]) <==> NoneHasHash(levels) && NoHash(last)
  {
    if NoneHasHash(levels + [last]) {
      assert (levels + [last])[|levels|] == last;
      forall k | 0 <= k < |levels| ensures NoHash(levels[k]) {
        assert (levels + [last])[k] == levels[k];
      }
    }
  }

  lemma NoHashSnoc(s: string, c: char)
    ensures NoHash(s + [c]) <==> NoHash(s) && c != '#'
  {
    assert (s + [c])[|s|] == c;
  }

  lemma {:induction false} HashInLevels(s: string)
    ensures NoHash(s) <==> NoneHasHash(Split(s, '/'))
  {
    if s != "" {
      var init, c := s[..|s| - 1], s[|s| - 1];
      HashInLevels(init);
      assert s == init + [c];
      NoHashSnoc(init, c);
      HashInLongerLevels(Split(init, '/'), c);
    }
  }

  /** What one more byte does to the levels, and whether they then contain a `#`. */
  lemma HashInLongerLevels(levels: seq<string>, c: char)
    requires levels != []
    ensures var last := |levels| - 1;
            NoneHasHash(if c == '/' then levels + [""] else levels[..last] + [levels[last] + [c]])
            <==> NoneHasHash(levels) && c != '#'
  {
    var last := |levels| - 1;
    if c == '/' {
      NoneHasHashSnoc(levels, "");
    } else {
      assert levels == levels[..last] + [levels[last]];
      NoneHasHashSnoc(levels[..last], levels[last]);
      NoneHasHashSnoc(levels[..last], levels[last] + [c]);
      NoHashSnoc(levels[last], c);
    }
  }

  /** Appending one byte keeps every byte in place exactly if no `#` came before, the byte fits what
      it follows, and the byte before it may be followed by it. */
  lemma InPlaceSnoc(init: string, c: char)
    ensures InPlace(init + [c]) <==>
            && InPlace(init) && NoHash(init)
            && (c == '+' || c == '#' ==> init == "" || init[|init| - 1] == '/')
            && (init != "" && init[|init| - 1] == '+' ==> c == '/')
  {
    var s := init + [c];
    var n := |init|;
    assert forall i :: 0 <= i < n ==> s[i] == init[i];
    if InPlace(s) {
      forall i | 0 <= i < n ensures ByteVerdict(init, i) == Accepted && init[i] != '#' {
        assert ByteVerdict(s, i) == Accepted;
      }
      assert ByteVerdict(s, n) == Accepted;
      if n > 0 {
        assert ByteVerdict(s, n - 1) == Accepted;
      }
    } else {
      var i :| 0 <= i <= n && ByteVerdict(s, i) != Accepted;
      if i < n {
        assert ByteVerdict(init, i) == Accepted ==> init[i] == '#' || (i == n - 1 && init[i] == '+' && c != '/');
      }
    }
  }

  /** The same step on levels. */
  lemma LevelRuleSnoc(init: string, c: char)
    ensures LevelRule(Split(init + [c], '/')) <==>
            && LevelRule(Split(init, '/')) && NoHash(init)
            && (c == '+' || c == '#' ==> LastLevel(init) == "")
            && ('+' in LastLevel(init) ==> c == '/')
  {
    var s := init + [c];
    assert s[..|init|] == init;
    HashInLevels(init);
    var before, after := Split(init, '/'), Split(s, '/');
    var last := |before| - 1;
    if c == '/' {
      assert after == before + [""];
      assert forall k :: 0 <= k <= last ==> after[k] == before[k];
      assert after[last + 1] == "";
    } else {
      assert forall k :: 0 <= k < last ==> after[k] == before[k];
      assert after[last] == before[last] + [c];
      LastLevelGrows(before[last], c);
      if LevelRule(after) {
        forall k | 0 <= k <= last
          ensures '+' in before[k] ==> before[k] == "+"
          ensures '#' in before[k] ==> before[k] == "#" && k == last
          ensures NoHash(before[k])
        {
          if k < last {
            assert after[k] == before[k];
          }
        }
      }
    }
  }

  /** When a level with one more byte obeys the rule as a last level. */
  lemma LastLevelGrows(level: string, c: char)
    requires c != '/'
    ensures (('+' in level + [c] ==> level + [c] == "+") && ('#' in level + [c] ==> level + [c] == "#")) <==>
            ('+' !in level && '#' !in level && (c == '+' || c == '#' ==> level == ""))
  {
    var s := level + [c];
    assert s[|level|] == c;
    if '+' in level {
      var i :| 0 <= i < |level| && level[i] == '+';
      assert s[i] == '+';
      assert |s| > 1;
    }
    if '#' in level {
      var i :| 0 <= i < |level| && level[i] == '#';
      assert s[i] == '#';
      assert |s| > 1;
    }
    if level == "" {
      assert s == [c];
    }
  }

  lemma {:induction false} InPlaceIsLevelRule(s: string)
    ensures InPlace(s) <==> LevelRule(Split(s, '/'))
  {
    if s != "" {
      var init, c := s[..|s| - 1], s[|s| - 1];
      assert s == init + [c];
      InPlaceIsLevelRule(init);
      InPlaceSnoc(init, c);
      LevelRuleSnoc(init, c);
      LastLevelIsSuffix(init);
      if InPlace(init) && '+' in LastLevel(init) {
        assert LastLevel(init) == "+";
        assert init[|init| - 1] == '+';
      }
      if init != "" && init[|init| - 1] == '+' {
        assert LastLevel(init) != "";
        assert LastLevel(init)[|LastLevel(init)| - 1] == '+';
      }
    }
  }

  /** The byte scanner accepts a filter exactly if it passes the topic checks and its levels obey
      the wildcard rule. */
  lemma FilterAcceptedExactly(filter: string)
    ensures FilterVerdict(filter) == Accepted <==>
            0 < |filter| <= 65535 && '\0' !in filter && LevelRule(Split(filter, '/'))
  {
    ScanIsPointwise(filter, 0);
    InPlaceIsLevelRule(filter);
  }

  /** The first byte out of place, a `+` that is not a whole level or a `#` that is not the whole last
      one, is at `i`. */
  predicate FirstOutOfPlace(s: string, i: nat) {
    Undivided(
      && i < |s| && ByteVerdict(s, i) != Accepted
      && forall j :: 0 <= j < i ==> ByteVerdict(s, j) == Accepted)
  }

  lemma {:induction false} ScanFindsFirst(s: string, from: nat, i: nat)
    requires from <= i && FirstOutOfPlace(s, i)
    ensures ScanFrom(s, from) == ByteVerdict(s, i)
    decreases i - from
  {
    if from < i {
      ScanFindsFirst(s, from + 1, i);
    }
  }

  /** What a filter is rejected for: being empty, longer than 65535 bytes or having a NUL, in this
      order, and otherwise the wildcard that is the first byte out of place. */
  lemma RejectedForExactly(filter: string)
    ensures var v := FilterVerdict(filter);
            var checked := 0 < |filter| <= 65535 && '\0' !in filter;
            && (v == Empty <==> filter == "")
            && (v == TooLong <==> |filter| > 65535)
            && (v == HasNul <==> 0 < |filter| <= 65535 && '\0' in filter)
            && (v == PlusNotWholeLevel <==> checked && exists i: nat :: FirstOutOfPlace(filter, i) && filter[i] == '+')
            && (v == HashNotLastLevel <==> checked && exists i: nat :: FirstOutOfPlace(filter, i) && filter[i] == '#')
  {
    ScanIsPointwise(filter, 0);
    forall i: nat | FirstOutOfPlace(filter, i) ensures ScanFrom(filter, 0) == ByteVerdict(filter, i) {
      ScanFindsFirst(filter, 0, i);
    }
    if !InPlace(filter) {
      var i := OutOfPlace(filter, 0);
      assert FirstOutOfPlace(filter, i);
    }
  }

  lemma {:induction false} OutOfPlace(s: string, from: nat) returns (i: nat)
    requires from <= |s| && !InPlace(s) && forall j :: 0 <= j < from ==> ByteVerdict(s, j) == Accepted
    ensures FirstOutOfPlace(s, i)
    decreases |s| - from
  {
    if ByteVerdict(s, from) != Accepted {
      i := from;
    } else {
      i := OutOfPlace(s, from + 1);
    }
  }

  // ----- matching -----

  predicate DollarRule(topic: string, filter: string) {
    topic != "" && topic[0] == '$' && (filter == "#" || "+" <= filter || "/#" <= filter)
  }

  /** The level walk from level `i` on. */
  predicate Walk(topic: seq<string>, filter: seq<string>, i: nat)
    requires i <= |topic| && i <= |filter|
    decreases |filter| - i
  {
    if i == |filter| then i == |topic|
    else if i == |topic| then filter[i] == "#"
    else if filter[i] == "#" then true
    else (filter[i] == "+" || topic[i] == filter[i]) && Walk(topic, filter, i + 1)
  }

  predicate Matches(topic: string, filter: string) {
    !DollarRule(topic, filter) && Walk(Split(topic, '/'), Split(filter, '/'), 0)
  }

  method TopicMatchesFilter(topic: string, filter: string) returns (b: bool)
    ensures b == Matches(topic, filter)
  {
    if topic != "" && topic[0] == '$' && (filter == "#" || "+" <= filter || "/#" <= filter) {
      return false;
    }
    var topicLevels, filterLevels := Split(topic, '/'), Split(filter, '/');
    var i := 0;
    while true
      invariant i <= |topicLevels| && i <= |filterLevels|
      invariant Walk(topicLevels, filterLevels, 0) == Walk(topicLevels, filterLevels, i)
      decreases |filterLevels| - i
    {
      if i == |topicLevels| && i == |filterLevels| {
        return true;
      } else if i == |filterLevels| {
        return false;
      } else if i == |topicLevels| {
        return filterLevels[i] == "#";
      } else if filterLevels[i] == "#" {
        return true;
      } else if filterLevels[i] != "+" && topicLevels[i] != filterLevels[i] {
        return false;
      }
      i := i + 1;
    }
  }

  predicate LevelMatches(t: string, f: string) { f == "+" || t == f }

  /** Section 4.7.1: level by level, and a trailing `#` stands for any number of further levels. */
  predicate LevelsMatch(topic: seq<string>, filter: seq<string>)
    requires filter != []
  {
    var n := |filter| - 1;
    if filter[n] == "#" then |topic| >= n && forall k :: 0 <= k < n ==> LevelMatches(topic[k], filter[k])
    else |topic| == |filter| && forall k :: 0 <= k < |filter| ==> LevelMatches(topic[k], filter[k])
  }

  /** Section 4.7.2: a filter that starts with a wildcard does not match a topic that starts with `$`. */
  predicate SpecMatches(topic: string, filter: string) {
    && !(topic != "" && topic[0] == '$' && filter != "" && (filter[0] == '#' || filter[0] == '+'))
    && LevelsMatch(Split(topic, '/'), Split(filter, '/'))
  }

  lemma {:induction false} WalkIsLevelsMatch(topic: seq<string>, filter: seq<string>, i: nat)
    requires i <= |topic| && i <= |filter| && filter != []
    requires forall k :: 0 <= k < |filter| - 1 ==> filter[k] != "#"
    requires forall k :: 0 <= k < i ==> LevelMatches(topic[k], filter[k]) && filter[k] != "#"
    ensures Walk(topic, filter, i) <==> LevelsMatch(topic, filter)
    decreases |filter| - i
  {
    var n := |filter| - 1;
    if i < |filter| && filter[i] == "#" {
      assert i == n;
    } else if i < |filter| && i < |topic| && LevelMatches(topic[i], filter[i]) {
      WalkIsLevelsMatch(topic, filter, i + 1);
    } else if i < |filter| && i < |topic| {
      assert !LevelMatches(topic[i], filter[i]);
      assert filter[n] == "#" ==> i < n;
    }
  }

  /** The first level starts with the first byte, unless that is a separator. */
  lemma {:induction false} FirstLevelStart(s: string)
    requires s != ""
    ensures if s[0] == '/' then Split(s, '/')[0] == "" else Split(s, '/')[0] != "" && Split(s, '/')[0][0] == s[0]
  {
    if |s| == 1 {
      assert s[..0] == "";
      assert Split("", '/') == [""];
    } else {
      var init := s[..|s| - 1];
      FirstLevelStart(init);
      var levels := Split(init, '/');
      if s[|s| - 1] != '/' && |levels| == 1 && s[0] == '/' {
        assert |Split(init, '/')| > 1 by { SeparatorSplits(init); }
      }
    }
  }

  lemma {:induction false} SeparatorSplits(s: string)
    requires s != "" && s[0] == '/'
    ensures |Split(s, '/')| > 1
  {
    if |s| == 1 {
      assert s[..0] == "";
    } else {
      SeparatorSplits(s[..|s| - 1]);
    }
  }

  /** For every accepted filter and every topic the matcher decides as the standard does. */
  lemma MatchesStandard(topic: string, filter: string)
    requires FilterVerdict(filter) == Accepted
    ensures Matches(topic, filter) <==> SpecMatches(topic, filter)
  {
    FilterAcceptedExactly(filter);
    var t, f := Split(topic, '/'), Split(filter, '/');
    assert '#' in "#";
    WalkIsLevelsMatch(t, f, 0);
    FirstLevelStart(filter);
    if topic != "" {
      FirstLevelStart(topic);
    }
    if filter[0] == '#' {
      assert '#' in f[0];
      JoinSplit(filter, '/');
    }
    if "/#" <= filter {
      assert filter[0] == '/' && f[0] == "" && filter[1] == '#';
      SeparatorSplits(filter);
    }
  }

  lemma {:induction false} WalkStopsAtHash(topic: seq<string>, filter: seq<string>, i: nat, n: nat)
    requires i <= |topic| && i <= n < |filter| && filter[n] == "#"
    ensures Walk(topic, filter, i) <==> Walk(topic, filter[..n + 1], i)
    decreases n - i
  {
    if i < n && i < |topic| && filter[i] != "#" {
      WalkStopsAtHash(topic, filter, i + 1, n);
    }
  }

  /** The matcher takes any filter, also one that was never validated: levels behind the first whole
      `#` do not count, and it decides as the standard does for the levels up to there. */
  lemma MatchesUpToHash(topic: string, filter: string, n: nat)
    requires var f := Split(filter, '/');
             && n <= |f| && (forall k :: 0 <= k < n ==> f[k] != "#") && (n < |f| ==> f[n] == "#")
    ensures var f := Split(filter, '/');
            Matches(topic, filter) <==>
              !DollarRule(topic, filter) && LevelsMatch(Split(topic, '/'), if n < |f| then f[..n + 1] else f)
  {
    var t, f := Split(topic, '/'), Split(filter, '/');
    if n < |f| {
      WalkStopsAtHash(t, f, 0, n);
      WalkIsLevelsMatch(t, f[..n + 1], 0);
    } else {
      WalkIsLevelsMatch(t, f, 0);
    }
  }
}
