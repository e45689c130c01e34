/** What the language-model service does with the completions it gets back. A completion
    is `Some(text)`, or `None` when the call raised. */
module Llm {
  import opened Wrappers
  import opened Strings
  import opened Session

  // ---------------------------------------------------------------------------
  // classify_scam and safety_check
  // ---------------------------------------------------------------------------

  /** `w in s.upper()`. */
  predicate Mentions(s: string, w: string) {
    Contains(Upper(s), w)
  }

  /** `classify_scam`: "SCAM" in the stripped, upper-cased completion; true when the call
      failed. Stripping never matters: the verdict is whether the upper-cased completion
      contains "SCAM" at all. */
  function ClassifyScam(completion: Option<string>): (isScam: bool)
    ensures completion.None? ==> isScam
    ensures completion.Some? ==> (isScam <==> Contains(Upper(completion.value), "SCAM"))
  {
    match completion
    case None => true
    case Some(c) =>
      VerdictIgnoresStrip(c, "SCAM");
      Mentions(Strip(c), "SCAM")
  }

  /** `safety_check`: "SAFE" in the stripped, upper-cased completion; true when the call
      failed. */
  function SafetyCheck(completion: Option<string>): (safe: bool)
    ensures completion.None? ==> safe
    ensures completion.Some? ==> (safe <==> Contains(Upper(completion.value), "SAFE"))
  {
    match completion
    case None => true
    case Some(c) =>
      VerdictIgnoresStrip(c, "SAFE");
      Mentions(Strip(c), "SAFE")
  }

  /** Whether a verdict word occurs in the upper-cased completion does not depend on
      stripping it first. */
  lemma VerdictIgnoresStrip(c: string, w: string)
    requires SpaceBounded(w)
    ensures Contains(Upper(Strip(c)), w) <==> Contains(Upper(c), w)
  {
    UpperStrip(c);
    StripKeepsWord(Upper(c), w);
  }

  /** A completion that calls the reply "UNSAFE", in any letter case, passes the safety
      check, since "UNSAFE" contains "SAFE". */
  lemma UnsafeVerdictPasses(c: string)
    requires Contains(Upper(c), "UNSAFE")
    ensures SafetyCheck(Some(c))
  {
    var u := Upper(c);
    var i :| 0 <= i <= |u| - 6 && OccursAt(u, "UNSAFE", i);
    assert u[i + 2..i + 6] == u[i..i + 6][2..6] == "SAFE";
    assert OccursAt(u, "SAFE", i + 2);
  }

  /** A completion that mentions neither word, in any letter case, is neither a scam nor
      safe. */
  lemma OtherVerdictFails(c: string)
    ensures !Contains(Upper(c), "SCAM") ==> !ClassifyScam(Some(c))
    ensures !Contains(Upper(c), "SAFE") ==> !SafetyCheck(Some(c))
  {
  }

  // ---------------------------------------------------------------------------
  // generate_response
  // ---------------------------------------------------------------------------

  /** One entry of the chat request. The system message carries the persona and the
      objective; the surrounding prompt wording is left out. */
  datatype Message = System(persona: string, objective: string) | User(content: string) | Assistant(content: string)

  const HistoryWindow: nat := 10

  /** `history[-10:]`. */
  function RecentTurns(history: seq<Turn>): (r: seq<Turn>)
    ensures |r| == if |history| < HistoryWindow then |history| else HistoryWindow
    ensures r == history[|history| - |r|..]
  {
    if |history| <= HistoryWindow then history else history[|history| - HistoryWindow..]
  }

  /** A user and an assistant message per turn, in order. */
  function TurnMessages(turns: seq<Turn>): (m: seq<Message>)
    ensures |m| == 2 * |turns|
  {
    if turns == [] then [] else [User(turns[0].user), Assistant(turns[0].agent)] + TurnMessages(turns[1..])
  }

  /** Turn `k` becomes messages `2k` (the user's) and `2k + 1` (the agent's). */
  lemma {:induction false} TurnMessagesAt(turns: seq<Turn>, k: nat)
    requires k < |turns|
    ensures TurnMessages(turns)[2 * k] == User(turns[k].user)
    ensures TurnMessages(turns)[2 * k + 1] == Assistant(turns[k].agent)
  {
    if k > 0 {
      TurnMessagesAt(turns[1..], k - 1);
    }
  }

  /** The message list of `generate_response`: the system message, the last ten turns of
      the history, and the current message. */
  function Messages(history: seq<Turn>, persona: string, objective: string, scammerText: string): seq<Message>
  {
    [System(persona, objective)] + TurnMessages(RecentTurns(history)) + [User(scammerText)]
  }

  lemma MessagesLayout(history: seq<Turn>, persona: string, objective: string, scammerText: string)
    ensures var m := Messages(history, persona, objective, scammerText);
      var n := if |history| < HistoryWindow then |history| else HistoryWindow;
      && |m| == 2 + 2 * n
      && m[0] == System(persona, objective)
      && m[|m| - 1] == User(scammerText)
      && forall k :: 0 <= k < n ==>
           m[1 + 2 * k] == User(history[|history| - n + k].user)
           && m[2 + 2 * k] == Assistant(history[|history| - n + k].agent)
  {
    var m := Messages(history, persona, objective, scammerText);
    MessagesShape(history, [System(persona, objective)], TurnMessages(RecentTurns(history)), [User(scammerText)], m);
  }

  lemma MessagesShape(history: seq<Turn>, head: seq<Message>, middle: seq<Message>, tail: seq<Message>, m: seq<Message>)
    requires |head| == 1 && |tail| == 1 && middle == TurnMessages(RecentTurns(history)) && m == head + middle + tail
    ensures var n := if |history| < HistoryWindow then |history| else HistoryWindow;
      && |m| == 2 + 2 * n
      && m[0] == head[0]
      && m[|m| - 1] == tail[0]
      && forall k :: 0 <= k < n ==>
           m[1 + 2 * k] == User(history[|history| - n + k].user)
           && m[2 + 2 * k] == Assistant(history[|history| - n + k].agent)
  {
    var recent := RecentTurns(history);
    var n := |recent|;
    forall k | 0 <= k < n
      ensures m[1 + 2 * k] == User(history[|history| - n + k].user)
      ensures m[2 + 2 * k] == Assistant(history[|history| - n + k].agent)
    {
      TurnMessagesAt(recent, k);
      assert recent[k] == history[|history| - n + k];
      assert m[1 + 2 * k] == middle[2 * k];
      assert m[2 + 2 * k] == middle[2 * k + 1];
    }
  }

  /** The appending loop of lines 63-71. */
  method BuildMessages(history: seq<Turn>, persona: string, objective: string, scammerText: string)
    returns (messages: seq<Message>)
    ensures messages == Messages(history, persona, objective, scammerText)
  {
    messages := [System(persona, objective)];
    var recent := RecentTurns(history);
    var i := 0;
    while i < |recent|
      invariant 0 <= i <= |recent|
      invariant messages == [System(persona, objective)] + TurnMessages(recent[..i])
    {
      ExtendTurns(recent, i, [System(persona, objective)]);
      messages := messages + [User(recent[i].user), Assistant(recent[i].agent)];
      i := i + 1;
    }
    assert recent[..i] == recent;
    messages := messages + [User(scammerText)];
  }

  /** One step of the appending loop: the messages of the first `i` turns, followed by the
      two messages of turn `i`. */
  lemma ExtendTurns(turns: seq<Turn>, i: nat, head: seq<Message>)
    requires i < |turns|
    ensures head + TurnMessages(turns[..i]) + [User(turns[i].user), Assistant(turns[i].agent)]
      == head + TurnMessages(turns[..i + 1])
  {
    assert turns[..i + 1] == turns[..i] + [turns[i]];
    TurnMessagesAppend(turns[..i], turns[i]);
  }

  lemma {:induction false} TurnMessagesAppend(turns: seq<Turn>, t: Turn)
    ensures TurnMessages(turns + [t]) == TurnMessages(turns) + [User(t.user), Assistant(t.agent)]
  {
    if turns != [] {
      assert (turns + [t])[1..] == turns[1..] + [t];
      TurnMessagesAppend(turns[1..], t);
    }
  }

  const Filler: string := "Oh dear, I seem to be having trouble with my phone currently."

  /** What `generate_response` returns for a completion: the stripped text, or the filler
      line when the call failed. */
  function ReplyOf(completion: Option<string>): (reply: string)
    ensures completion.None? ==> reply == Filler
    ensures completion.Some? ==> reply == Strip(completion.value)
  {
    match completion
    case None => Filler
    case Some(c) => Strip(c)
  }

  /** A successful reply is the completion with only surrounding whitespace removed. */
  lemma ReplyIsTrimmedCompletion(c: string)
    ensures var r := ReplyOf(Some(c));
      (r == [] || (!IsSpace(r[0]) && !IsSpace(r[|r| - 1])))
      && exists i :: OccursAt(c, r, i)
           && (forall k :: 0 <= k < i ==> IsSpace(c[k]))
           && (forall k :: i + |r| <= k < |c| ==> IsSpace(c[k]))
  {
    StripIsInfix(c);
  }

  // ---------------------------------------------------------------------------
  // generate_persona
  // ---------------------------------------------------------------------------

  const Personas: seq<string> := [
    "Naive Grandma: Confused, slow, mentions grandkids, uses wrong tech terms.",
    "Over-eager Employee: Wants to follow rules, very polite, slightly bureaucratic.",
    "Tech Illiterate Dad: Trying his best, types in caps sometimes, asks 'is this the google?'.",
    "Skeptical but Greedy: Suspicious but really wants the money/prize."
  ]

  /** `random.choice(personas)`: any one of the four fixed styles. */
  method GeneratePersona() returns (persona: string)
    ensures persona in Personas
  {
    assert Personas[0] in Personas;
    persona :| persona in Personas;
  }

  // ---------------------------------------------------------------------------
  // extract_unknown_entities
  // ---------------------------------------------------------------------------

  /** The parser's dictionary from keys to lists. */
  type EntityDict = Dict<seq<string>>

  /** `d[k] = v`: an existing key keeps its place and takes the new value, a new key goes
      last. */
  function Put(d: EntityDict, k: string, v: seq<string>): (r: EntityDict)
    requires UniqueKeys(d)
    ensures UniqueKeys(r)
    ensures Lookup(r, k) == Some(v)
    ensures forall k' :: k' != k ==> Lookup(r, k') == Lookup(d, k')
  {
    if d == [] then [(k, v)]
    else if d[|d| - 1].0 == k then
      LookupAbsent(d[..|d| - 1], k);
      d[..|d| - 1] + [(k, v)]
    else
      var r := Put(d[..|d| - 1], k, v) + [d[|d| - 1]];
      assert r[..|r| - 1] == Put(d[..|d| - 1], k, v);
      LookupAbsent(Put(d[..|d| - 1], k, v), d[|d| - 1].0);
      LookupAbsent(d[..|d| - 1], d[|d| - 1].0);
      r
  }

  /** The key and value of one `key: value` output line, or None for a line with no ':'.
      The key is stripped, lower-cased and has its spaces replaced by underscores; the value
      is stripped. */
  function LineEntry(line: string): Option<(string, string)>
  {
    if ':' in line then
      var i := FirstIndex(line, ':');
      Some((SpacesToUnderscores(Lower(Strip(line[..i]))), Strip(line[i + 1..])))
    else None
  }

  /** The entry of each output line, in order. */
  function LineEntries(lines: seq<string>): (es: seq<Option<(string, string)>>)
    ensures |es| == |lines| && forall i :: 0 <= i < |lines| ==> es[i] == LineEntry(lines[i])
  {
    seq(|lines|, i requires 0 <= i < |lines| => LineEntry(lines[i]))
  }

  /** The dictionary the parsing loop has built after the line entries `es`. */
  function ParseEntries(es: seq<Option<(string, string)>>): (d: EntityDict)
    ensures UniqueKeys(d)
  {
    if es == [] then []
    else
      var d := ParseEntries(es[..|es| - 1]);
      match es[|es| - 1]
      case Some((k, v)) => Put(d, k, [v])
      case None => d
  }

  /** Entry `e` is a `key: value` line for key `k`. */
  predicate HasKey(e: Option<(string, string)>, k: string) { e.Some? && e.value.0 == k }

  /** The value of the last entry that carries key `k`. */
  function LastValue(es: seq<Option<(string, string)>>, k: string): Option<string>
  {
    if es == [] then None
    else if HasKey(es[|es| - 1], k) then Some(es[|es| - 1].value.1)
    else LastValue(es[..|es| - 1], k)
  }

  /** A later line with the same key overwrites the earlier one: each key maps to the
      one-element list of the last value given for it, and only keys of lines holding ':'
      appear. */
  lemma {:induction false} ParseEntriesLastWins(es: seq<Option<(string, string)>>, k: string)
    ensures Lookup(ParseEntries(es), k) == match LastValue(es, k) case Some(v) => Some([v]) case None => None
  {
    if es != [] {
      ParseEntriesLastWins(es[..|es| - 1], k);
    }
  }

  /** There is no last value for `k` iff no entry carries `k`. */
  lemma {:induction false} LastValueNone(es: seq<Option<(string, string)>>, k: string)
    ensures LastValue(es, k).None? <==> forall i :: 0 <= i < |es| ==> !HasKey(es[i], k)
  {
    if es != [] {
      var init := es[..|es| - 1];
      LastValueNone(init, k);
      assert forall i :: 0 <= i < |init| ==> init[i] == es[i];
    }
  }

  const NothingNew: string := "Nothing new found"

  predicate SaysNothingNew(output: string) {
    Contains(output, NothingNew)
  }

  /** `extract_unknown_entities` on a completion. */
  function UnknownEntities(completion: Option<string>): (d: EntityDict)
    ensures UniqueKeys(d)
  {
    match completion
    case None => []
    case Some(c) =>
      var output := Strip(c);
      if SaysNothingNew(output) then [] else ParseEntries(LineEntries(Split(output, '\n')))
  }

  /** The parsing loop of lines 156-163, over the lines of a completion. */
  method ParseOutput(lines: seq<string>) returns (extracted: EntityDict)
    ensures extracted == ParseEntries(LineEntries(lines))
  {
    extracted := [];
    ghost var es := LineEntries(lines);
    var i := 0;
    while i < |lines|
      invariant 0 <= i <= |lines|
      invariant extracted == ParseEntries(es[..i])
    {
      assert es[..i + 1][..i] == es[..i];
      var line := lines[i];
      if ':' in line {
        var cut := FirstIndex(line, ':');
        var key := SpacesToUnderscores(Lower(Strip(line[..cut])));
        var value := Strip(line[cut + 1..]);
        extracted := Put(extracted, key, [value]);
      }
      i := i + 1;
    }
    assert es[..i] == es;
  }

  /** `extract_unknown_entities(text, known_keys_str)` given the model's completion. */
  method ExtractUnknownEntities(completion: Option<string>) returns (extracted: EntityDict)
    ensures extracted == UnknownEntities(completion)
  {
    match completion {
      case None =>
        extracted := [];
      case Some(c) =>
        var output := Strip(c);
        if SaysNothingNew(output) {
          extracted := [];
        } else {
          extracted := ParseOutput(Split(output, '\n'));
        }
    }
  }

  /** A completion that says "Nothing new found" anywhere, or a failed call, yields no
      entities; stripping cannot hide the phrase. */
  lemma NothingNewGivesNoEntities(completion: Option<string>)
    requires completion.Some? ==> Contains(completion.value, NothingNew)
    ensures UnknownEntities(completion) == []
  {
    if completion.Some? {
      assert NothingNew[0] == 'N' && NothingNew[|NothingNew| - 1] == 'd';
      StripKeepsWord(completion.value, NothingNew);
    }
  }

  /** For any other completion, a key is in the result iff some output line carries it,
      and then its value is the one-element list of the last such line's value. */
  lemma EntitiesFromLines(c: string, k: string)
    requires !Contains(Strip(c), NothingNew)
    ensures var es := LineEntries(Split(Strip(c), '\n'));
      && (Lookup(UnknownEntities(Some(c)), k).Some? <==> exists i :: 0 <= i < |es| && HasKey(es[i], k))
      && (LastValue(es, k).Some? ==> Lookup(UnknownEntities(Some(c)), k) == Some([LastValue(es, k).value]))
  {
    EntriesLookup(LineEntries(Split(Strip(c), '\n')), k);
  }

  /** The same, stated for the line entries themselves. */
  lemma EntriesLookup(es: seq<Option<(string, string)>>, k: string)
    ensures Lookup(ParseEntries(es), k).Some? <==> exists i :: 0 <= i < |es| && HasKey(es[i], k)
    ensures LastValue(es, k).Some? ==> Lookup(ParseEntries(es), k) == Some([LastValue(es, k).value])
  {
    ParseEntriesLastWins(es, k);
    LastValueNone(es, k);
  }
}
