/**
 The bounded conversation history of a turn (`window` and `relevant_window` of
 `agent/context_manager.py`).
 */
module HistoryWindow {
  import opened Prelude
  import opened Configuration

  datatype Role = User | Assistant

  datatype Message = Message(role: Role, content: string)

  datatype ConversationWindow = ConversationWindow(older: seq<Message>, recent: seq<Message>)

  /** The last `n` elements, `s[-n:]`. */
  function Last<T>(s: seq<T>, n: nat): (r: seq<T>)
    ensures |r| == (if n < |s| then n else |s|) && r == s[|s| - |r|..]
  {
    if n <= |s| then s[|s| - n..] else s
  }

  /** The stripped messages that are not blank. */
  function Stripped(history: seq<Message>, space: set<char>): (r: seq<Message>)
    ensures |r| <= |history|
    ensures forall m <- r :: m.content != "" && Strip(m.content, space) == m.content
  {
    if history == [] then []
    else
      var content := Strip(history[0].content, space);
      (if content == "" then [] else [Message(history[0].role, content)]) + Stripped(history[1..], space)
  }

  function Candidates(history: seq<Message>, config: SessionConfiguration, space: set<char>): (r: seq<Message>)
    requires config.Valid()
    ensures |r| <= config.maxHistoryMessages
  {
    Stripped(Last(history, config.maxHistoryMessages), space)
  }

  function Chars(messages: seq<Message>): nat {
    if messages == [] then 0 else |messages[0].content| + Chars(messages[1..])
  }

  predicate StartsWithAssistant(messages: seq<Message>) {
    messages != [] && messages[0].role.Assistant?
  }

  /** A suffix of the candidates that may be shown. */
  predicate Admissible(candidates: seq<Message>, start: nat, limit: int)
    requires start <= |candidates|
  {
    Chars(candidates[start..]) <= limit && !StartsWithAssistant(candidates[start..])
  }

  /** The longest admissible suffix starts at `start`. */
  ghost predicate Longest(candidates: seq<Message>, start: nat, limit: int) {
    && start <= |candidates| && Admissible(candidates, start, limit)
    && forall s: nat {:trigger Admissible(candidates, s, limit)} :: s < start ==> !Admissible(candidates, s, limit)
  }

  /** The boundary never separates an answer from its question. */
  predicate PairSplit(older: seq<Message>, recent: seq<Message>) {
    older != [] && recent != [] && older[|older| - 1].role.User? && recent[0].role.Assistant?
  }

  /** How many of `n` selected messages are recent, before the boundary is moved. */
  function RecentCount(n: nat, config: SessionConfiguration): nat
    requires config.Valid()
  {
    if n < config.recentHistoryMessages then n else config.recentHistoryMessages
  }

  /** The selected messages, split into older and recent ones. */
  ghost predicate IsSplit(selected: seq<Message>, config: SessionConfiguration, w: ConversationWindow)
    requires config.Valid()
  {
    var plain := RecentCount(|selected|, config);
    && w.older + w.recent == selected && !PairSplit(w.older, w.recent)
    && (|w.recent| == plain || (|w.recent| == plain + 1 && w.recent[0].role.User?
                                && StartsWithAssistant(w.recent[1..])))
  }

  ghost predicate IsBlank(content: string, space: set<char>) {
    forall c <- content :: c in space
  }

  /** `at` are the positions of the non-blank messages from `first` on. */
  ghost predicate SaysSomething(history: seq<Message>, first: int, space: set<char>, at: seq<nat>) {
    && Increasing(at)
    && forall k: nat :: k in at <==> first <= k < |history| && !IsBlank(history[k].content, space)
  }

  /** The message with its outer white space cut off. */
  ghost predicate Trims(message: Message, m: Message, space: set<char>) {
    m.role == message.role && IsStripped(message.content, m.content, space)
  }

  /** Exactly the non-blank messages among the last `n`, in order, with their roles and stripped contents. */
  ghost predicate AreCandidates(history: seq<Message>, n: nat, space: set<char>, at: seq<nat>,
      candidates: seq<Message>) {
    && SaysSomething(history, |history| - n, space, at) && |at| == |candidates|
    && (forall i :: 0 <= i < |at| ==> at[i] in at)
    && forall i :: 0 <= i < |at| ==> at[i] < |history| && Trims(history[at[i]], candidates[i], space)
  }

  /** The window over these candidates. */
  ghost predicate IsWindowOf(candidates: seq<Message>, config: SessionConfiguration, w: ConversationWindow)
    requires config.Valid()
  {
    exists start: nat ::
      && start <= |candidates| && Longest(candidates, start, config.maxHistoryCharacters)
      && IsSplit(candidates[start..], config, w)
  }

  ghost predicate IsWindow(history: seq<Message>, config: SessionConfiguration, space: set<char>, w: ConversationWindow)
    requires config.Valid()
  {
    exists at, candidates ::
      AreCandidates(history, config.maxHistoryMessages, space, at, candidates) && IsWindowOf(candidates, config, w)
  }

  /** The positions from `shift` on at which `Stripped` keeps a message. */
  function Kept(history: seq<Message>, space: set<char>, shift: nat): (at: seq<nat>) {
    if history == [] then []
    else
      (if Strip(history[0].content, space) == "" then [] else [shift]) + Kept(history[1..], space, shift + 1)
  }

  lemma {:induction false} KeptSaysSomething(history: seq<Message>, space: set<char>, shift: nat)
    ensures forall k :: k in Kept(history, space, shift) <==>
              shift <= k < shift + |history| && !IsBlank(history[k - shift].content, space)
    ensures Increasing(Kept(history, space, shift))
  {
    hide Strip;
    if history != [] {
      var rest := Kept(history[1..], space, shift + 1);
      KeptSaysSomething(history[1..], space, shift + 1);
      forall j | 0 <= j < |rest| ensures shift < rest[j] {
        assert rest[j] in rest;
      }
    }
  }

  /** Each message of `r` is the trimmed one at its position; the history starts at position `shift`. */
  ghost predicate TrimsAll(history: seq<Message>, shift: nat, at: seq<nat>, r: seq<Message>, space: set<char>) {
    |r| == |at| && forall i :: 0 <= i < |at| ==>
      shift <= at[i] < shift + |history| && Trims(history[at[i] - shift], r[i], space)
  }

  lemma TrimsMore(message: Message, rest: seq<Message>, shift: nat, at: seq<nat>, r: seq<Message>, space: set<char>)
    requires TrimsAll(rest, shift + 1, at, r, space)
    ensures TrimsAll([message] + rest, shift, at, r, space)
    ensures forall m :: Trims(message, m, space) ==> TrimsAll([message] + rest, shift, [shift] + at, [m] + r, space)
  {
    hide Trims;
    var history := [message] + rest;
    assert forall i :: 0 <= i < |at| ==> history[at[i] - shift] == rest[at[i] - (shift + 1)];
    forall m | Trims(message, m, space) ensures TrimsAll(history, shift, [shift] + at, [m] + r, space) {
      forall i | 0 <= i <= |at|
        ensures shift <= ([shift] + at)[i] < shift + |history|
        ensures Trims(history[([shift] + at)[i] - shift], ([m] + r)[i], space)
      {
        if i > 0 {
          assert ([shift] + at)[i] == at[i - 1] && ([m] + r)[i] == r[i - 1];
        }
      }
    }
  }

  lemma {:induction false} StrippedTrims(history: seq<Message>, space: set<char>, shift: nat)
    ensures TrimsAll(history, shift, Kept(history, space, shift), Stripped(history, space), space)
  {
    hide Strip, IsStripped, TrimsAll;
    if history == [] {
      NothingTrims(shift, space);
    } else {
      var message, rest := history[0], history[1..];
      var at, r := Kept(rest, space, shift + 1), Stripped(rest, space);
      assert history == [message] + rest && [] + at == at && [] + r == r;
      StrippedTrims(rest, space, shift + 1);
      StripIsStripped(message.content, space);
      TrimsMore(message, rest, shift, at, r, space);
    }
  }

  lemma NothingTrims(shift: nat, space: set<char>)
    ensures TrimsAll([], shift, [], [], space)
  {
  }

  /** What the loop of `window` looks at. */
  lemma CandidatesAreThose(history: seq<Message>, config: SessionConfiguration, space: set<char>) returns (at: seq<nat>)
    requires config.Valid()
    ensures AreCandidates(history, config.maxHistoryMessages, space, at, Candidates(history, config, space))
  {
    hide Strip, Stripped, Kept, Trims, TrimsAll, IsBlank, SaysSomething;
    var tail := Last(history, config.maxHistoryMessages);
    var first := |history| - |tail|;
    at := Kept(tail, space, first);
    KeptSaysSomething(tail, space, first);
    StrippedTrims(tail, space, first);
    TailSpeaks(history, first, config.maxHistoryMessages, space, at);
    TailTrims(history, first, at, Stripped(tail, space), space);
  }

  lemma TailSpeaks(history: seq<Message>, first: nat, n: nat, space: set<char>, at: seq<nat>)
    requires first == (if n < |history| then |history| - n else 0) && Increasing(at)
    requires forall k :: k in at <==>
               first <= k < first + |history[first..]| && !IsBlank(history[first..][k - first].content, space)
    ensures SaysSomething(history, |history| - n, space, at)
  {
    hide IsBlank;
    assert forall k :: first <= k < |history| ==> history[first..][k - first] == history[k];
  }

  lemma TailTrims(history: seq<Message>, first: nat, at: seq<nat>, r: seq<Message>, space: set<char>)
    requires first <= |history| && TrimsAll(history[first..], first, at, r, space)
    ensures |at| == |r|
    ensures forall i :: 0 <= i < |at| ==> at[i] < |history| && Trims(history[at[i]], r[i], space)
  {
    hide Trims;
    assert forall k :: first <= k < |history| ==> history[first..][k - first] == history[k];
  }

  lemma CandidatesAreUnique(history: seq<Message>, n: nat, space: set<char>, at: seq<nat>, a: seq<Message>,
      to: seq<nat>, b: seq<Message>)
    requires AreCandidates(history, n, space, at, a) && AreCandidates(history, n, space, to, b)
    ensures a == b
  {
    hide IsStripped, IsBlank;
    IncreasingIsUnique(at, to);
    forall i | 0 <= i < |a| ensures a[i] == b[i] {
      assert Trims(history[at[i]], a[i], space) && Trims(history[at[i]], b[i], space);
      StrippedIsUnique(history[at[i]].content, a[i].content, b[i].content, space);
    }
  }

  /** There are at most as many candidates as places. */
  lemma FewCandidates(history: seq<Message>, n: nat, space: set<char>, at: seq<nat>, candidates: seq<Message>)
    requires AreCandidates(history, n, space, at, candidates)
    ensures |candidates| <= n
  {
    hide IsBlank, Trims;
    IncreasingIsSparse(at, |history| - n, |history|);
  }

  lemma {:induction false} IncreasingIsSparse(at: seq<nat>, low: int, high: int)
    requires Increasing(at) && (forall i :: 0 <= i < |at| ==> low <= at[i] < high) && low <= high
    ensures |at| <= high - low
  {
    if at != [] {
      IncreasingIsSparse(at[..|at| - 1], low, at[|at| - 1]);
    }
  }

  lemma {:induction false} ShorterSuffixIsSmaller(candidates: seq<Message>, s: nat, n: nat)
    requires s <= n <= |candidates|
    ensures Chars(candidates[n..]) <= Chars(candidates[s..])
    decreases n - s
  {
    if s < n {
      assert candidates[s..][1..] == candidates[s + 1..];
      ShorterSuffixIsSmaller(candidates, s + 1, n);
    }
  }

  /** No suffix that starts before `n` is admissible. */
  ghost predicate NothingLonger(candidates: seq<Message>, n: nat, limit: int) {
    && n <= |candidates|
    && forall s: nat {:trigger Admissible(candidates, s, limit)} :: s < n ==> !Admissible(candidates, s, limit)
  }

  lemma StopsAtLimit(candidates: seq<Message>, n: nat, limit: int)
    requires 0 < n <= |candidates| && |candidates[n - 1].content| > limit - Chars(candidates[n..])
    ensures NothingLonger(candidates, n, limit)
  {
    assert candidates[n - 1..][1..] == candidates[n..];
    forall s: nat | s < n ensures !Admissible(candidates, s, limit) {
      ShorterSuffixIsSmaller(candidates, s, n - 1);
    }
  }

  lemma OneMore(candidates: seq<Message>, n: nat)
    requires 0 < n <= |candidates|
    ensures candidates[n - 1..] == [candidates[n - 1]] + candidates[n..]
    ensures Chars(candidates[n - 1..]) == |candidates[n - 1].content| + Chars(candidates[n..])
  {
    assert candidates[n - 1..][1..] == candidates[n..];
  }

  /** A suffix that starts with an assistant message gives way to the next shorter one. */
  lemma AssistantGivesWay(candidates: seq<Message>, n: nat, limit: int)
    requires n < |candidates| && NothingLonger(candidates, n, limit) && StartsWithAssistant(candidates[n..])
    ensures NothingLonger(candidates, n + 1, limit) && Chars(candidates[n + 1..]) <= Chars(candidates[n..])
  {
    OneMore(candidates, n + 1);
  }

  lemma NothingWeighs()
    ensures Chars([]) == 0
  {
  }

  lemma NothingBefore(candidates: seq<Message>, limit: int)
    ensures NothingLonger(candidates, 0, limit)
  {
  }

  lemma LongestOfAll(candidates: seq<Message>, n: nat, limit: int)
    requires NothingLonger(candidates, n, limit)
    requires Chars(candidates[n..]) <= limit && !StartsWithAssistant(candidates[n..])
    ensures Longest(candidates, n, limit)
  {
  }

  /** The loops of `window` that choose the messages. */
  method LongestSuffix(candidates: seq<Message>, limit: int) returns (selected: seq<Message>)
    requires limit >= 0
    ensures exists start: nat ::
              && start <= |candidates| && Longest(candidates, start, limit)
              && selected == candidates[start..]
  {
    hide Chars, Admissible, NothingLonger;
    selected := [];
    NothingWeighs();
    ghost var start: nat := |candidates|;
    var remaining := limit;
    var n := |candidates|;
    while n > 0
      invariant 0 <= n <= |candidates| && n == start && selected == candidates[n..]
      invariant remaining == limit - Chars(selected) && remaining >= 0
    {
      var message := candidates[n - 1];
      if |message.content| > remaining {
        StopsAtLimit(candidates, n, limit);
        break;
      }
      OneMore(candidates, n);
      selected := [message] + selected;
      remaining, n, start := remaining - |message.content|, n - 1, n - 1;
    }
    if n == 0 {
      NothingBefore(candidates, limit);
    }
    while StartsWithAssistant(selected)
      invariant 0 <= start <= |candidates| && selected == candidates[start..] && Chars(selected) <= limit
      invariant NothingLonger(candidates, start, limit)
      decreases selected
    {
      AssistantGivesWay(candidates, start, limit);
      assert selected[1..] == candidates[start + 1..];
      selected, start := selected[1..], start + 1;
    }
    LongestOfAll(candidates, start, limit);
  }

  /** `window`. */
  method Window(history: seq<Message>, config: SessionConfiguration, space: set<char>) returns (w: ConversationWindow)
    requires config.Valid()
    ensures IsWindow(history, config, space, w)
  {
    hide Longest, Candidates, AreCandidates;
    ghost var at := CandidatesAreThose(history, config, space);
    var selected := LongestSuffix(Candidates(history, config, space), config.maxHistoryCharacters);
    var splitAt := if |selected| < config.recentHistoryMessages then 0 else |selected| - config.recentHistoryMessages;
    if 0 < splitAt < |selected| && selected[splitAt].role.Assistant? && selected[splitAt - 1].role.User? {
      splitAt := splitAt - 1;
    }
    w := ConversationWindow(selected[..splitAt], selected[splitAt..]);
    assert IsSplit(selected, config, w);
    assert IsWindowOf(Candidates(history, config, space), config, w);
  }

  function Contents(messages: seq<Message>): (r: seq<string>)
    ensures |r| == |messages| && forall i :: 0 <= i < |r| ==> r[i] == messages[i].content
  {
    seq(|messages|, i requires 0 <= i < |messages| => messages[i].content)
  }

  /** The size of a history is the length of all its contents. */
  lemma {:induction false} CharsIsLength(messages: seq<Message>)
    ensures Chars(messages) == |Join(Contents(messages))|
  {
    if messages != [] {
      CharsIsLength(messages[1..]);
      assert Contents(messages)[1..] == Contents(messages[1..]);
    }
  }

  /**
   The window in plain terms: of the candidates, the longest suffix whose contents
   fit the character limit and which the user opens; its last messages are recent,
   as many as configured, and one more where the cut would fall between a question
   and its answer.
   */
  lemma WindowMeans(history: seq<Message>, config: SessionConfiguration, space: set<char>, w: ConversationWindow)
    returns (at: seq<nat>, candidates: seq<Message>, start: nat)
    requires config.Valid() && IsWindow(history, config, space, w)
    ensures AreCandidates(history, config.maxHistoryMessages, space, at, candidates)
    ensures start <= |candidates| && w.older + w.recent == candidates[start..]
    ensures |Join(Contents(candidates[start..]))| <= config.maxHistoryCharacters
    ensures start < |candidates| ==> candidates[start].role == User
    ensures forall s: nat :: s < start ==>
              |Join(Contents(candidates[s..]))| > config.maxHistoryCharacters || candidates[s].role == Assistant
    ensures var selected := candidates[start..];
            var n := |selected|;
            var cut := if n < config.recentHistoryMessages then 0 else n - config.recentHistoryMessages;
            var splits := 0 < cut < n && selected[cut - 1].role == User && selected[cut].role == Assistant;
            |w.older| == if splits then cut - 1 else cut
  {
    hide AreCandidates, Longest, IsSplit, Contents, Join;
    at, candidates :|
      AreCandidates(history, config.maxHistoryMessages, space, at, candidates) && IsWindowOf(candidates, config, w);
    start :| start <= |candidates| && Longest(candidates, start, config.maxHistoryCharacters)
             && IsSplit(candidates[start..], config, w);
    SuffixMeans(candidates, start, config.maxHistoryCharacters);
    SplitMeans(candidates[start..], config, w);
  }

  lemma SuffixMeans(candidates: seq<Message>, start: nat, limit: int)
    requires Longest(candidates, start, limit)
    ensures |Join(Contents(candidates[start..]))| <= limit
    ensures start < |candidates| ==> candidates[start].role == User
    ensures forall s: nat :: s < start ==>
              |Join(Contents(candidates[s..]))| > limit || candidates[s].role == Assistant
  {
    hide Contents, Join, Chars;
    CharsIsLength(candidates[start..]);
    forall s: nat | s < start ensures |Join(Contents(candidates[s..]))| > limit || candidates[s].role == Assistant {
      assert !Admissible(candidates, s, limit);
      CharsIsLength(candidates[s..]);
    }
  }

  lemma SplitMeans(selected: seq<Message>, config: SessionConfiguration, w: ConversationWindow)
    requires config.Valid() && IsSplit(selected, config, w)
    ensures var n := |selected|;
            var cut := if n < config.recentHistoryMessages then 0 else n - config.recentHistoryMessages;
            var splits := 0 < cut < n && selected[cut - 1].role == User && selected[cut].role == Assistant;
            w.older + w.recent == selected && |w.older| == if splits then cut - 1 else cut
  {
    assert |w.older| + |w.recent| == |selected|;
    assert forall k :: 0 <= k < |w.older| ==> selected[k] == w.older[k];
    assert forall k :: 0 <= k < |w.recent| ==> selected[|w.older| + k] == w.recent[k];
  }

  /** The window is at most as long as both limits, and its recent part exceeds its own by at most one. */
  lemma WindowIsBounded(history: seq<Message>, config: SessionConfiguration, space: set<char>, w: ConversationWindow)
    requires config.Valid() && IsWindow(history, config, space, w)
    ensures Chars(w.older + w.recent) <= config.maxHistoryCharacters
    ensures |w.older| + |w.recent| <= config.maxHistoryMessages
    ensures |w.recent| <= config.recentHistoryMessages + 1
    ensures !StartsWithAssistant(w.older + w.recent) && !PairSplit(w.older, w.recent)
  {
    hide AreCandidates;
    var at, candidates :|
      AreCandidates(history, config.maxHistoryMessages, space, at, candidates) && IsWindowOf(candidates, config, w);
    FewCandidates(history, config.maxHistoryMessages, space, at, candidates);
  }

  /** The window is determined by the history. */
  lemma WindowIsUnique(history: seq<Message>, config: SessionConfiguration, space: set<char>,
      v: ConversationWindow, w: ConversationWindow)
    requires config.Valid() && IsWindow(history, config, space, v) && IsWindow(history, config, space, w)
    ensures v == w
  {
    hide AreCandidates, IsSplit, Longest;
    var n, limit := config.maxHistoryMessages, config.maxHistoryCharacters;
    var at, candidates :| AreCandidates(history, n, space, at, candidates) && IsWindowOf(candidates, config, v);
    var to, others :| AreCandidates(history, n, space, to, others) && IsWindowOf(others, config, w);
    CandidatesAreUnique(history, n, space, at, candidates, to, others);
    var a: nat :| a <= |candidates| && Longest(candidates, a, limit) && IsSplit(candidates[a..], config, v);
    var b: nat :| b <= |candidates| && Longest(candidates, b, limit) && IsSplit(candidates[b..], config, w);
    LongestIsUnique(candidates, a, b, limit);
    SplitIsUnique(candidates[a..], config, v, w);
  }

  lemma LongestIsUnique(candidates: seq<Message>, a: nat, b: nat, limit: int)
    requires Longest(candidates, a, limit) && Longest(candidates, b, limit)
    ensures a == b
  {
  }

  lemma SplitIsUnique(selected: seq<Message>, config: SessionConfiguration, v: ConversationWindow,
      w: ConversationWindow)
    requires config.Valid() && IsSplit(selected, config, v) && IsSplit(selected, config, w)
    ensures v == w
  {
    assert v.recent == selected[|v.older|..] && w.recent == selected[|w.older|..];
    assert v.older == selected[..|v.older|] && w.older == selected[..|w.older|];
    assert |v.older| + |v.recent| == |selected| == |w.older| + |w.recent|;
  }

  // ----- the relevant part

  /** `b` is what remains of `a` after dropping some elements. */
  ghost predicate Subsequence(a: seq<Message>, b: seq<Message>, at: seq<nat>) {
    && |at| == |b|
    && (forall k :: 0 <= k < |at| ==> at[k] < |a| && b[k] == a[at[k]])
    && (forall j, k :: 0 <= j < k < |at| ==> at[j] < at[k])
  }

  /** The older messages that share a term with the user input, in order. */
  function Relevant(older: seq<Message>, terms: Message -> bool): (r: seq<Message>) {
    if older == [] then []
    else Relevant(older[..|older| - 1], terms) + if terms(older[|older| - 1]) then [older[|older| - 1]] else []
  }

  function Chronology(older: seq<Message>, terms: Message -> bool): (at: seq<nat>) {
    if older == [] then []
    else Chronology(older[..|older| - 1], terms) + if terms(older[|older| - 1]) then [|older| - 1] else []
  }

  /** Exactly the messages that share a term, in order. */
  lemma {:induction false} RelevantInOrder(older: seq<Message>, terms: Message -> bool)
    ensures Subsequence(older, Relevant(older, terms), Chronology(older, terms))
    ensures forall k: nat :: k in Chronology(older, terms) <==> k < |older| && terms(older[k])
  {
    if older != [] {
      var rest := older[..|older| - 1];
      RelevantInOrder(rest, terms);
      assert forall k: nat :: k < |rest| ==> rest[k] == older[k];
    }
  }

  lemma {:induction false} CharsAppend(a: seq<Message>, b: seq<Message>)
    ensures Chars(a + b) == Chars(a) + Chars(b)
  {
    if a == [] {
      assert a + b == b;
    } else {
      assert (a + b)[1..] == a[1..] + b;
      CharsAppend(a[1..], b);
    }
  }

  lemma {:induction false} RelevantIsSmaller(older: seq<Message>, terms: Message -> bool)
    ensures Chars(Relevant(older, terms)) <= Chars(older)
  {
    if older != [] {
      var rest, last := older[..|older| - 1], older[|older| - 1];
      RelevantIsSmaller(rest, terms);
      assert older == rest + [last];
      CharsAppend(rest, [last]);
      CharsAppend(Relevant(rest, terms), if terms(last) then [last] else []);
    }
  }

  /** The loop that pops leading assistant messages. */
  function DropAssistants(messages: seq<Message>): (r: seq<Message>)
    ensures |r| <= |messages| && r == messages[|messages| - |r|..] && !StartsWithAssistant(r)
    ensures forall k :: 0 <= k < |messages| - |r| ==> messages[k].role.Assistant?
  {
    if StartsWithAssistant(messages) then DropAssistants(messages[1..]) else messages
  }

  /** Dropping leading messages keeps the order of the rest. */
  lemma {:induction false} DroppedInOrder(older: seq<Message>, kept: seq<Message>, at: seq<nat>)
    returns (rest: seq<nat>)
    requires Subsequence(older, kept, at)
    ensures Subsequence(older, DropAssistants(kept), rest)
    ensures forall k :: k in rest <==> k in at && UserBy(older, at, k)
    decreases kept
  {
    rest := at;
    if StartsWithAssistant(kept) {
      rest := DroppedInOrder(older, kept[1..], at[1..]);
      forall k ensures k in at[1..] && UserBy(older, at[1..], k) <==> k in at && UserBy(older, at, k) {
        AssistantInFront(older, kept, at, k);
      }
    } else {
      forall k | k in at ensures UserBy(older, at, k) {
        var j :| 0 <= j < |at| && at[j] == k;
        assert older[at[0]] == kept[0] && at[0] <= k && at[0] in at;
      }
    }
  }

  /** The user wrote one of these messages at or before position `k`. */
  ghost predicate UserBy(older: seq<Message>, at: seq<nat>, k: nat) {
    exists u :: u in at && u <= k && u < |older| && older[u].role == User
  }

  lemma AssistantInFront(older: seq<Message>, kept: seq<Message>, at: seq<nat>, k: nat)
    requires Subsequence(older, kept, at) && StartsWithAssistant(kept)
    ensures k in at[1..] && UserBy(older, at[1..], k) <==> k in at && UserBy(older, at, k)
  {
    assert at == [at[0]] + at[1..] && older[at[0]] == kept[0];
    if k in at && UserBy(older, at, k) {
      var u :| u in at && u <= k && u < |older| && older[u].role == User;
      assert u in at[1..];
      var i :| 0 <= i < |at[1..]| && at[1..][i] == u;
      assert at[i + 1] == u && at[0] < u;
    }
  }

  lemma {:induction false} DroppedIsSmaller(messages: seq<Message>)
    ensures Chars(DropAssistants(messages)) <= Chars(messages)
  {
    if StartsWithAssistant(messages) { DroppedIsSmaller(messages[1..]); }
  }

  /** What relevance leaves of a bounded window. */
  function RelevantPart(bounded: ConversationWindow, terms: Message -> bool): ConversationWindow {
    ConversationWindow(DropAssistants(Relevant(bounded.older, terms)), bounded.recent)
  }

  /** `relevant_window`: `terms` says which messages share a term with the user input. */
  method RelevantWindow(history: seq<Message>, config: SessionConfiguration, space: set<char>, terms: Message -> bool)
    returns (w: ConversationWindow)
    requires config.Valid()
    ensures exists bounded :: IsWindow(history, config, space, bounded) && w == RelevantPart(bounded, terms)
  {
    hide IsWindow;
    var bounded := Window(history, config, space);
    var older := [];
    for k := 0 to |bounded.older|
      invariant older == Relevant(bounded.older[..k], terms)
    {
      assert bounded.older[..k + 1][..k] == bounded.older[..k];
      if terms(bounded.older[k]) {
        older := older + [bounded.older[k]];
      }
    }
    assert bounded.older[..|bounded.older|] == bounded.older;
    while StartsWithAssistant(older)
      invariant DropAssistants(older) == DropAssistants(Relevant(bounded.older, terms))
      decreases older
    {
      older := older[1..];
    }
    w := ConversationWindow(older, bounded.recent);
  }

  /**
   What relevance leaves of the older messages: exactly those that share a term with
   the input, from the first such message of the user on, in order and within the
   same budget; the recent messages stay.
   */
  lemma RelevanceKeepsOrderAndBudget(history: seq<Message>, config: SessionConfiguration, space: set<char>,
      terms: Message -> bool, bounded: ConversationWindow)
    returns (at: seq<nat>)
    requires config.Valid() && IsWindow(history, config, space, bounded)
    ensures var w := RelevantPart(bounded, terms);
            && Subsequence(bounded.older, w.older, at) && w.recent == bounded.recent
            && Chars(w.older + w.recent) <= config.maxHistoryCharacters
    ensures var older := bounded.older;
            forall k: nat :: k in at <==>
              && k < |older| && terms(older[k])
              && exists u: nat :: u <= k && terms(older[u]) && older[u].role == User
  {
    hide IsWindow, Chars, Subsequence;
    var older := bounded.older;
    var relevant, times := Relevant(older, terms), Chronology(older, terms);
    RelevantInOrder(older, terms);
    at := DroppedInOrder(older, relevant, times);
    forall k: nat | k < |older|
      ensures UserBy(older, times, k) <==> exists u: nat :: u <= k && terms(older[u]) && older[u].role == User
    {
      if u: nat :| u <= k && terms(older[u]) && older[u].role == User {
        assert u in times;
      }
    }
    RelevantIsSmaller(older, terms);
    DroppedIsSmaller(relevant);
    CharsAppend(DropAssistants(relevant), bounded.recent);
    CharsAppend(older, bounded.recent);
    WindowIsBounded(history, config, space, bounded);
  }
}
