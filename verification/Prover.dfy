/**
  The refinement conversation of the Lean prover (`ProverTask`): ask for a proof, check it, and ask again with the
  error, until it is proved, the turns are used up or the conversation no longer fits the context.
*/
module Prover {
  import opened Sequences
  import opened Wrappers

  datatype Role = System | User | Assistant
  datatype Message = Message(role: Role, content: string)
  type Conversation = seq<Message>

  datatype Config = Config(maxTokens: int, tokensToGenerate: int, maxTurns: nat, refinement: bool, nemotron: bool,
                           removeCot: bool, deleteWrongTurns: bool)
  {
    /** The constructor of `ProverTask` refuses `delete_wrong_turns` without `remove_cot`. */
    predicate Valid() {
      deleteWrongTurns ==> removeCot
    }
  }

  /** What became of the code: none was found, it was proved, or it failed with a message. */
  datatype Verdict = Unparsed | Proved | Failed(message: string)

  /** One generation, what the assistant is recorded to have said, in full or only the code, and the verdict. */
  datatype Turn = Turn(generation: string, replyText: string, fullCode: string, cleanedText: string, verdict: Verdict)
  {
    function Reply(): Message { Message(Assistant, replyText) }
    function Cleaned(): Message { Message(Assistant, cleanedText) }
  }

  /** The prompts and the tokenizer. */
  datatype Tools = Tools(tokens: Conversation -> nat, feedback: string -> Conversation,
                         transform: (string, string) -> Conversation)

  /** One call of the model. */
  datatype Request = Request(conversation: Conversation, tokens: int)

  /** A proof failed although no refinement prompt was set up. */
  datatype ProverError = NoRefinePrompt

  /** The lists that grow by one entry per generation, and the requests sent. */
  datatype Log = Log(codeList: seq<string>, results: seq<Verdict>, promptTurnsList: seq<Conversation>, requests: seq<Request>)

  datatype Outcome = Outcome(log: Log, promptTurns: Conversation, turnIdx: nat, success: bool, fullPromptTurns: Conversation)

  /** The model, the sandbox and everything between them, turn by turn. */
  type Turns = nat -> Turn

  // ---------------------------------------------------------------------------
  // What each turn is asked
  // ---------------------------------------------------------------------------

  /** The conversation once a turn with code has been added to it. */
  function WithTurn(cfg: Config, base: Conversation, prompt: Conversation, t: Turn): Conversation {
    if !cfg.removeCot then prompt + [t.Reply()]
    else if cfg.deleteWrongTurns then base + [t.Cleaned()]
    else prompt + [t.Cleaned()]
  }

  function Feedback(tools: Tools, t: Turn): Conversation {
    match t.verdict case Failed(m) => tools.feedback(m) case _ => []
  }

  /** The plain conversation at the start of turn `k`. */
  function PromptAt(cfg: Config, tools: Tools, base: Conversation, turns: Turns, k: nat): Conversation {
    if k == 0 then base
    else
      var t := turns(k - 1);
      if t.verdict == Unparsed then base
      else WithTurn(cfg, base, PromptAt(cfg, tools, base, turns, k - 1), t) + Feedback(tools, t)
  }

  /** Everything said before turn `k`. */
  function FullAt(tools: Tools, base: Conversation, turns: Turns, k: nat): Conversation {
    if k == 0 then base
    else FullAt(tools, base, turns, k - 1) + [turns(k - 1).Reply()] + Feedback(tools, turns(k - 1))
  }

  /** What is really sent at turn `k`. */
  function SentAt(cfg: Config, tools: Tools, base: Conversation, turns: Turns, k: nat): Conversation {
    if k > 0 && cfg.nemotron && turns(k - 1).verdict.Failed? && turns(k - 1).generation != "" && turns(k - 1).verdict.message != ""
    then tools.transform(turns(k - 1).generation, turns(k - 1).verdict.message)
    else PromptAt(cfg, tools, base, turns, k)
  }

  function RequestAt(cfg: Config, tools: Tools, base: Conversation, turns: Turns, k: nat): Request {
    var sent := SentAt(cfg, tools, base, turns, k);
    var room := cfg.maxTokens - tools.tokens(sent);
    Request(sent, if room < cfg.tokensToGenerate then room else cfg.tokensToGenerate)
  }

  predicate Fits(cfg: Config, tools: Tools, base: Conversation, turns: Turns, k: nat) {
    tools.tokens(SentAt(cfg, tools, base, turns, k)) <= cfg.maxTokens
  }

  /** Turn `k` is not the end of the run. */
  predicate GoesOn(cfg: Config, turns: Turns, k: nat) {
    turns(k).verdict != Proved && cfg.refinement && k + 1 < cfg.maxTurns
  }

  /** The first `n` turns happened, in the lists that are kept. */
  ghost predicate Recorded(cfg: Config, tools: Tools, base: Conversation, turns: Turns, n: nat, log: Log) {
    && |log.codeList| == |log.results| == |log.promptTurnsList| == |log.requests| == n
    && Kept(turns, n, log) && Said(cfg, tools, base, turns, n, log) && Asked(cfg, tools, base, turns, n, log)
  }

  /** The code and the verdict of every turn. */
  ghost predicate Kept(turns: Turns, n: nat, log: Log)
    requires |log.codeList| == |log.results| == n
  {
    && (forall k {:trigger log.codeList[k]} :: 0 <= k < n ==> log.codeList[k] == turns(k).fullCode)
    && (forall k {:trigger log.results[k]} :: 0 <= k < n ==> log.results[k] == turns(k).verdict)
  }

  /** The conversation of every turn with its answer. */
  ghost predicate Said(cfg: Config, tools: Tools, base: Conversation, turns: Turns, n: nat, log: Log)
    requires |log.promptTurnsList| == n
  {
    forall k {:trigger log.promptTurnsList[k]} :: 0 <= k < n ==>
      log.promptTurnsList[k] == PromptAt(cfg, tools, base, turns, k) + [turns(k).Reply()]
  }

  /** The request of every turn; each fitted. */
  ghost predicate Asked(cfg: Config, tools: Tools, base: Conversation, turns: Turns, n: nat, log: Log)
    requires |log.requests| == n
  {
    && (forall k {:trigger log.requests[k]} :: 0 <= k < n ==> log.requests[k] == RequestAt(cfg, tools, base, turns, k))
    && (forall k {:trigger Fits(cfg, tools, base, turns, k)} :: 0 <= k < n ==> Fits(cfg, tools, base, turns, k))
  }

  /** How a run of `n` generations ended. */
  ghost predicate Ended(cfg: Config, tools: Tools, base: Conversation, turns: Turns, n: nat, o: Outcome) {
    && n <= cfg.maxTurns
    && (forall k :: 0 <= k < n - 1 ==> GoesOn(cfg, turns, k))
    && (o.success <==> n > 0 && turns(n - 1).verdict == Proved)
    && (if n == 0 || GoesOn(cfg, turns, n - 1) then
          // no room for turn n, or no turns at all
          && (cfg.maxTurns == 0 || !Fits(cfg, tools, base, turns, n))
          && o.turnIdx == n
          && o.promptTurns == PromptAt(cfg, tools, base, turns, n)
          && o.fullPromptTurns == FullAt(tools, base, turns, n)
        else
          var last, prompt := turns(n - 1), PromptAt(cfg, tools, base, turns, n - 1);
          && o.turnIdx == n - 1
          && o.promptTurns == (if last.verdict == Unparsed then prompt else WithTurn(cfg, base, prompt, last))
          && o.fullPromptTurns == FullAt(tools, base, turns, n - 1) + [last.Reply()])
  }

  function Logged(log: Log, said: Conversation, t: Turn, request: Request): Log {
    Log(log.codeList + [t.fullCode], log.results + [t.verdict], log.promptTurnsList + [said], log.requests + [request])
  }

  lemma SaidOneMore(cfg: Config, tools: Tools, base: Conversation, turns: Turns, n: nat, log: Log, log': Log)
    requires |log.promptTurnsList| == n && Said(cfg, tools, base, turns, n, log)
    requires log'.promptTurnsList == log.promptTurnsList + [PromptAt(cfg, tools, base, turns, n) + [turns(n).Reply()]]
    ensures Said(cfg, tools, base, turns, n + 1, log')
  {
  }

  lemma AskedOneMore(cfg: Config, tools: Tools, base: Conversation, turns: Turns, n: nat, log: Log, log': Log)
    requires |log.requests| == n && Asked(cfg, tools, base, turns, n, log) && Fits(cfg, tools, base, turns, n)
    requires log'.requests == log.requests + [RequestAt(cfg, tools, base, turns, n)]
    ensures Asked(cfg, tools, base, turns, n + 1, log')
  {
  }

  lemma KeptOneMore(turns: Turns, n: nat, log: Log, log': Log)
    requires |log.codeList| == |log.results| == n && Kept(turns, n, log)
    requires log'.codeList == log.codeList + [turns(n).fullCode] && log'.results == log.results + [turns(n).verdict]
    ensures Kept(turns, n + 1, log')
  {
  }

  lemma RecordOne(cfg: Config, tools: Tools, base: Conversation, turns: Turns, n: nat, log: Log, request: Request)
    requires Recorded(cfg, tools, base, turns, n, log)
    requires Fits(cfg, tools, base, turns, n) && request == RequestAt(cfg, tools, base, turns, n)
    ensures Recorded(cfg, tools, base, turns, n + 1,
                     Logged(log, PromptAt(cfg, tools, base, turns, n) + [turns(n).Reply()], turns(n), request))
  {
    var log' := Logged(log, PromptAt(cfg, tools, base, turns, n) + [turns(n).Reply()], turns(n), request);
    KeptOneMore(turns, n, log, log');
    SaidOneMore(cfg, tools, base, turns, n, log, log');
    AskedOneMore(cfg, tools, base, turns, n, log, log');
  }

  /** The last attempt and its error, for the single-turn form of refinement. */
  datatype Last = Nothing | Last(attempt: string, error: string)

  function LastAt(turns: Turns, k: nat): Last {
    if k > 0 && turns(k - 1).verdict.Failed? then Last(turns(k - 1).generation, turns(k - 1).verdict.message) else Nothing
  }

  /** The state at the start of turn `k`. */
  ghost predicate Running(cfg: Config, tools: Tools, base: Conversation, turns: Turns, k: nat, prompt: Conversation,
                          full: Conversation, last: Last, log: Log)
  {
    && prompt == PromptAt(cfg, tools, base, turns, k) && full == FullAt(tools, base, turns, k) && last == LastAt(turns, k)
    && Recorded(cfg, tools, base, turns, k, log)
    && forall j :: 0 <= j < k ==> GoesOn(cfg, turns, j)
  }

  lemma TurnGoesOn(cfg: Config, tools: Tools, base: Conversation, turns: Turns, k: nat, prompt: Conversation,
                   full: Conversation, last: Last, log: Log)
    requires Running(cfg, tools, base, turns, k, prompt, full, last, log)
    requires Fits(cfg, tools, base, turns, k) && GoesOn(cfg, turns, k)
    ensures var t, request := turns(k), RequestAt(cfg, tools, base, turns, k);
            Running(cfg, tools, base, turns, k + 1,
                    if t.verdict == Unparsed then base else WithTurn(cfg, base, prompt, t) + Feedback(tools, t),
                    full + [t.Reply()] + Feedback(tools, t), LastAt(turns, k + 1),
                    Logged(log, prompt + [t.Reply()], t, request))
  {
    RecordOne(cfg, tools, base, turns, k, log, RequestAt(cfg, tools, base, turns, k));
  }

  lemma TurnEnds(cfg: Config, tools: Tools, base: Conversation, turns: Turns, k: nat, prompt: Conversation,
                 full: Conversation, last: Last, log: Log)
    requires Running(cfg, tools, base, turns, k, prompt, full, last, log)
    requires Fits(cfg, tools, base, turns, k) && !GoesOn(cfg, turns, k) && k < cfg.maxTurns
    ensures var t, request := turns(k), RequestAt(cfg, tools, base, turns, k);
            var log' := Logged(log, prompt + [t.Reply()], t, request);
            && Recorded(cfg, tools, base, turns, k + 1, log')
            && Ended(cfg, tools, base, turns, k + 1,
                     Outcome(log', if t.verdict == Unparsed then prompt else WithTurn(cfg, base, prompt, t), k,
                             t.verdict == Proved, full + [t.Reply()]))
  {
    RecordOne(cfg, tools, base, turns, k, log, RequestAt(cfg, tools, base, turns, k));
  }

  lemma NoRoomEnds(cfg: Config, tools: Tools, base: Conversation, turns: Turns, k: nat, prompt: Conversation,
                   full: Conversation, last: Last, log: Log)
    requires Running(cfg, tools, base, turns, k, prompt, full, last, log)
    requires if cfg.maxTurns == 0 then k == 0 else k < cfg.maxTurns && !Fits(cfg, tools, base, turns, k)
    ensures Ended(cfg, tools, base, turns, k, Outcome(log, prompt, k, false, full))
  {
    assert k > 0 ==> GoesOn(cfg, turns, k - 1);
  }

  class ProverTask {
    const cfg: Config
    const tools: Tools

    constructor (cfg: Config, tools: Tools)
      requires cfg.Valid()
      ensures this.cfg == cfg && this.tools == tools
    {
      this.cfg, this.tools := cfg, tools;
    }

    /** The request of a turn, unless the conversation has become too long. */
    method Prepare(base: Conversation, turns: Turns, turnIdx: nat, prompt: Conversation, last: Last) returns (r: Option<Request>)
      requires prompt == PromptAt(cfg, tools, base, turns, turnIdx) && last == LastAt(turns, turnIdx)
      ensures r == if Fits(cfg, tools, base, turns, turnIdx) then Some(RequestAt(cfg, tools, base, turns, turnIdx)) else None
    {
      var prepared := prompt;
      if turnIdx != 0 && cfg.nemotron && last.Last? && last.attempt != "" && last.error != "" {
        prepared := tools.transform(last.attempt, last.error);
      }
      var prefixTokens := tools.tokens(prepared);
      if prefixTokens > cfg.maxTokens {
        return None;
      }
      var room := cfg.maxTokens - prefixTokens;
      r := Some(Request(prepared, if room < cfg.tokensToGenerate then room else cfg.tokensToGenerate));
    }

    method SingleDataPointGenerate(base: Conversation, turns: Turns) returns (r: Result<Outcome, ProverError>)
      ensures r.Err? <==> !cfg.refinement && cfg.maxTurns > 0 && Fits(cfg, tools, base, turns, 0) && turns(0).verdict.Failed?
      ensures r.Ok? ==> Recorded(cfg, tools, base, turns, |r.value.log.codeList|, r.value.log)
      ensures r.Ok? ==> Ended(cfg, tools, base, turns, |r.value.log.codeList|, r.value)
    {
      var prompt, full := base, base;
      var log := Log([], [], [], []);
      var turnIdx, last := 0, Nothing;
      if cfg.maxTurns == 0 {
        NoRoomEnds(cfg, tools, base, turns, 0, prompt, full, last, log);
        return Ok(Outcome(log, prompt, turnIdx, false, full));
      }
      while true
        invariant 0 <= turnIdx < cfg.maxTurns && (turnIdx > 0 ==> cfg.refinement)
        invariant Running(cfg, tools, base, turns, turnIdx, prompt, full, last, log)
        decreases cfg.maxTurns - turnIdx
      {
        var request := Prepare(base, turns, turnIdx, prompt, last);
        if request == None {
          NoRoomEnds(cfg, tools, base, turns, turnIdx, prompt, full, last, log);
          return Ok(Outcome(log, prompt, turnIdx, false, full));
        }
        var t := turns(turnIdx);
        if GoesOn(cfg, turns, turnIdx) {
          TurnGoesOn(cfg, tools, base, turns, turnIdx, prompt, full, last, log);
        } else {
          TurnEnds(cfg, tools, base, turns, turnIdx, prompt, full, last, log);
        }
        log := Logged(log, prompt + [t.Reply()], t, request.value);
        full := full + [t.Reply()];
        if t.verdict != Unparsed {
          prompt := WithTurn(cfg, base, prompt, t);
        }
        if t.verdict.Failed? && !cfg.refinement {
          return Err(NoRefinePrompt);
        }
        if t.verdict == Proved || !cfg.refinement || turnIdx >= cfg.maxTurns - 1 {
          return Ok(Outcome(log, prompt, turnIdx, t.verdict == Proved, full));
        }
        if t.verdict == Unparsed {
          // A clean retry, with no feedback and no history.
          assert full + [] == full;
          prompt, last := base, Nothing;
        } else {
          var feedback := tools.feedback(t.verdict.message);
          last := Last(t.generation, t.verdict.message);
          prompt, full := prompt + feedback, full + feedback;
        }
        turnIdx := turnIdx + 1;
      }
    }
  }

  // ---------------------------------------------------------------------------
  // The shape of the conversation
  // ---------------------------------------------------------------------------

  /** After the base prompt assistant and user take turns, the assistant first and the user last. */
  predicate Continues(base: Conversation, p: Conversation) {
    && base <= p && (|p| - |base|) % 2 == 0
    && forall i :: |base| <= i < |p| ==> p[i].role == if (i - |base|) % 2 == 0 then Assistant else User
  }

  /** The refinement prompt is one user message. */
  ghost predicate OneMessage(tools: Tools) {
    forall m: string :: |tools.feedback(m)| == 1 && tools.feedback(m)[0].role == User
  }

  predicate ReachedWithoutProof(turns: Turns, k: nat) {
    forall j :: 0 <= j < k ==> turns(j).verdict != Proved
  }

  lemma OneMoreExchange(base: Conversation, p: Conversation, a: Message, u: Message)
    requires Continues(base, p) && a.role == Assistant && u.role == User
    ensures Continues(base, p + [a] + [u])
  {
  }

  /** Every plain conversation is the base prompt followed by whole exchanges; it is the base prompt itself right after a
      failure to find code, and never more than one exchange longer when wrong turns are deleted. */
  lemma {:induction false} PromptShape(cfg: Config, tools: Tools, base: Conversation, turns: Turns, k: nat)
    requires cfg.Valid() && OneMessage(tools) && ReachedWithoutProof(turns, k)
    ensures Continues(base, PromptAt(cfg, tools, base, turns, k))
    ensures k > 0 && turns(k - 1).verdict == Unparsed ==> PromptAt(cfg, tools, base, turns, k) == base
    ensures cfg.deleteWrongTurns ==> |PromptAt(cfg, tools, base, turns, k)| <= |base| + 2
  {
    assert Continues(base, base);
    if k > 0 && turns(k - 1).verdict != Unparsed {
      PromptShape(cfg, tools, base, turns, k - 1);
      var before, t := PromptAt(cfg, tools, base, turns, k - 1), turns(k - 1);
      assert t.verdict != Proved;
      var a, u := if cfg.removeCot then t.Cleaned() else t.Reply(), tools.feedback(t.verdict.message)[0];
      assert tools.feedback(t.verdict.message) == [u];
      OneMoreExchange(base, base, a, u);
      OneMoreExchange(base, before, a, u);
    }
  }

  /** Turns `from` to `k - 1`: each answer, only its code if the reasoning is removed, followed by the error. */
  function Exchanges(cfg: Config, tools: Tools, turns: Turns, from: nat, k: nat): Conversation
    requires from <= k && forall j :: from <= j < k ==> turns(j).verdict.Failed?
  {
    if from == k then []
    else
      var t := turns(k - 1);
      Exchanges(cfg, tools, turns, from, k - 1)
      + ([Message(Assistant, if cfg.removeCot then t.cleanedText else t.replyText)] + tools.feedback(t.verdict.message))
  }

  /** The conversation is the base prompt and every exchange since the beginning or the last answer without code, or
      only the last of these exchanges when wrong turns are deleted. */
  lemma {:induction false} PromptIsExchanges(cfg: Config, tools: Tools, base: Conversation, turns: Turns, from: nat, k: nat)
    requires cfg.Valid() && from <= k && (from == 0 || turns(from - 1).verdict == Unparsed)
    requires forall j :: from <= j < k ==> turns(j).verdict.Failed?
    ensures PromptAt(cfg, tools, base, turns, k)
         == base + Exchanges(cfg, tools, turns, if cfg.deleteWrongTurns && from < k then k - 1 else from, k)
  {
    if from == k {
      assert base + [] == base;
    } else {
      PromptIsExchanges(cfg, tools, base, turns, from, k - 1);
      var t := turns(k - 1);
      var answer := [Message(Assistant, if cfg.removeCot then t.cleanedText else t.replyText)];
      var error := tools.feedback(t.verdict.message);
      if cfg.deleteWrongTurns {
        AppendAssociates(base, answer, error);
        assert [] + (answer + error) == answer + error;
      } else {
        var before := Exchanges(cfg, tools, turns, from, k - 1);
        AppendAssociates(base + before, answer, error);
        AppendAssociates(base, before, answer + error);
      }
    }
  }

  lemma {:induction false} FullGrows(tools: Tools, base: Conversation, turns: Turns, j: nat, k: nat)
    requires j <= k
    ensures FullAt(tools, base, turns, j) <= FullAt(tools, base, turns, k)
    ensures j < k ==> FullAt(tools, base, turns, j) + [turns(j).Reply()] <= FullAt(tools, base, turns, k)
  {
    if j < k {
      FullGrows(tools, base, turns, j, k - 1);
    }
  }

  lemma UnparsedStep(tools: Tools, base: Conversation, turns: Turns, j: nat)
    requires turns(j).verdict == Unparsed
    ensures FullAt(tools, base, turns, j + 1) == FullAt(tools, base, turns, j) + [turns(j).Reply()]
  {
    var before := FullAt(tools, base, turns, j);
    assert Feedback(tools, turns(j)) == [];
    assert before + [turns(j).Reply()] + [] == before + [turns(j).Reply()];
  }

  /** Whole exchanges are followed by one message of the assistant, or by two in a row. */
  lemma AssistantTwiceBreaks(base: Conversation, before: Conversation, full: Conversation, first: Message)
    requires Continues(base, before) && before + [first] <= full
    requires |full| > |before| + 1 ==> full[|before| + 1].role == Assistant
    ensures !Continues(base, full)
  {
  }

  /** After a failure to find code, the full record has two assistant messages in a row, or ends with one. */
  lemma UnparsedBreaksFull(tools: Tools, base: Conversation, turns: Turns, j: nat, k: nat)
    requires j < k && turns(j).verdict == Unparsed && Continues(base, FullAt(tools, base, turns, j))
    ensures !Continues(base, FullAt(tools, base, turns, k))
  {
    var before, full := FullAt(tools, base, turns, j), FullAt(tools, base, turns, k);
    UnparsedStep(tools, base, turns, j);
    FullGrows(tools, base, turns, j + 1, k);
    if j + 1 < k {
      SecondMessage(before + [turns(j).Reply()], turns(j + 1).Reply(), full);
    }
    AssistantTwiceBreaks(base, before, full, turns(j).Reply());
  }

  lemma SecondMessage(xs: Conversation, m: Message, full: Conversation)
    requires xs + [m] <= full
    ensures |full| > |xs| && full[|xs|] == m
  {
    assert full[|xs|] == (xs + [m])[|xs|];
  }

  /** The full record, kept for training data, takes turns exactly when code was found every time. */
  lemma {:induction false} FullAlternatesIff(tools: Tools, base: Conversation, turns: Turns, k: nat)
    requires OneMessage(tools) && ReachedWithoutProof(turns, k)
    ensures Continues(base, FullAt(tools, base, turns, k)) <==> forall j :: 0 <= j < k ==> turns(j).verdict != Unparsed
  {
    if k == 0 {
      assert Continues(base, base);
    } else {
      FullAlternatesIff(tools, base, turns, k - 1);
      var t := turns(k - 1);
      if Continues(base, FullAt(tools, base, turns, k - 1)) {
        if t.verdict == Unparsed {
          UnparsedBreaksFull(tools, base, turns, k - 1, k);
        } else {
          assert t.verdict != Proved;
          var u := tools.feedback(t.verdict.message)[0];
          assert tools.feedback(t.verdict.message) == [u];
          OneMoreExchange(base, FullAt(tools, base, turns, k - 1), t.Reply(), u);
        }
      } else {
        var j := FirstUnparsed(turns, k - 1);
        FullAlternatesIff(tools, base, turns, j);
        UnparsedBreaksFull(tools, base, turns, j, k);
      }
    }
  }

  lemma {:induction false} FirstUnparsed(turns: Turns, k: nat) returns (j: nat)
    requires exists j :: 0 <= j < k && turns(j).verdict == Unparsed
    ensures j < k && turns(j).verdict == Unparsed && forall i :: 0 <= i < j ==> turns(i).verdict != Unparsed
  {
    if i :| 0 <= i < k - 1 && turns(i).verdict == Unparsed {
      j := FirstUnparsed(turns, k - 1);
    } else {
      j := k - 1;
    }
  }

  /** The error of turn `k - 1` can be handed to the single-turn refinement prompt. */
  predicate Transformed(cfg: Config, turns: Turns, k: nat) {
    && cfg.nemotron && k > 0 && turns(k - 1).verdict.Failed?
    && turns(k - 1).generation != "" && turns(k - 1).verdict.message != ""
  }

  /** What the model is sent at turn `k` where the conversation so far is `prompt`. */
  function SentFor(cfg: Config, tools: Tools, turns: Turns, k: nat, prompt: Conversation): Conversation {
    if Transformed(cfg, turns, k) then tools.transform(turns(k - 1).generation, turns(k - 1).verdict.message) else prompt
  }

  /** A run that ends without a proof has used up its turns (one without refinement), or the next conversation would
      not have fitted. */
  lemma WhyItStops(cfg: Config, tools: Tools, base: Conversation, turns: Turns, o: Outcome)
    requires Recorded(cfg, tools, base, turns, |o.log.codeList|, o.log)
    requires Ended(cfg, tools, base, turns, |o.log.codeList|, o)
    ensures var n := |o.log.codeList|;
      && n <= cfg.maxTurns && (!cfg.refinement ==> n <= 1)
      && (!o.success && n < cfg.maxTurns && (cfg.refinement || n == 0) ==>
            tools.tokens(SentFor(cfg, tools, turns, n, o.promptTurns)) > cfg.maxTokens)
  {
    var n := |o.log.codeList|;
    if n > 1 {
      assert GoesOn(cfg, turns, n - 2);
    }
  }

  /** What holds of every finished run. */
  lemma RunShape(cfg: Config, tools: Tools, base: Conversation, turns: Turns, o: Outcome)
    requires cfg.Valid() && OneMessage(tools)
    requires Recorded(cfg, tools, base, turns, |o.log.codeList|, o.log)
    requires Ended(cfg, tools, base, turns, |o.log.codeList|, o)
    ensures |o.log.codeList| == |o.log.results| == |o.log.promptTurnsList| == |o.log.requests|
    ensures |o.log.codeList| <= if cfg.refinement then cfg.maxTurns else 1
    ensures o.success <==> Proved in o.log.results
    ensures forall k :: 0 <= k < |o.log.results| - 1 ==> o.log.results[k] != Proved
    ensures forall k :: 0 <= k < |o.log.requests| ==>
      && o.log.codeList[k] == turns(k).fullCode && o.log.results[k] == turns(k).verdict
      && ShapeOfTurn(cfg, tools, base, turns, o, k)
  {
    var n := |o.log.codeList|;
    forall k | 0 <= k < n
      ensures k < n - 1 ==> o.log.results[k] != Proved
      ensures o.log.codeList[k] == turns(k).fullCode && o.log.results[k] == turns(k).verdict
      ensures ShapeOfTurn(cfg, tools, base, turns, o, k)
    {
      TurnShape(cfg, tools, base, turns, o, k);
    }
    if n > 1 {
      assert GoesOn(cfg, turns, n - 2);
    }
  }

  /** Turns that are not the last have not proved anything. */
  lemma TurnShape(cfg: Config, tools: Tools, base: Conversation, turns: Turns, o: Outcome, k: nat)
    requires cfg.Valid() && OneMessage(tools) && k < |o.log.codeList|
    requires Recorded(cfg, tools, base, turns, |o.log.codeList|, o.log)
    requires Ended(cfg, tools, base, turns, |o.log.codeList|, o)
    ensures k < |o.log.codeList| - 1 ==> o.log.results[k] != Proved
    ensures o.log.codeList[k] == turns(k).fullCode && o.log.results[k] == turns(k).verdict
    ensures ShapeOfTurn(cfg, tools, base, turns, o, k)
  {
    forall j | 0 <= j < k
      ensures turns(j).verdict != Proved
    {
      assert GoesOn(cfg, turns, j);
    }
    PromptShape(cfg, tools, base, turns, k);
    RequestShape(cfg, tools, base, turns, o, k);
    assert k > 0 ==> o.log.results[k - 1] == turns(k - 1).verdict;
    assert o.log.promptTurnsList[k] == PromptAt(cfg, tools, base, turns, k) + [turns(k).Reply()];
    if k < |o.log.codeList| - 1 {
      assert GoesOn(cfg, turns, k);
    }
  }

  lemma RequestShape(cfg: Config, tools: Tools, base: Conversation, turns: Turns, o: Outcome, k: nat)
    requires k < |o.log.codeList| && Recorded(cfg, tools, base, turns, |o.log.codeList|, o.log)
    ensures Asks(cfg, tools, o.log.requests[k], SentFor(cfg, tools, turns, k, PromptAt(cfg, tools, base, turns, k)))
  {
    assert Fits(cfg, tools, base, turns, k);
    assert o.log.requests[k] == RequestAt(cfg, tools, base, turns, k);
  }

  /** The model is sent this conversation, and asked for as much as is wanted or as there is room for. */
  ghost predicate Asks(cfg: Config, tools: Tools, request: Request, sent: Conversation) {
    && request.conversation == sent
    && tools.tokens(sent) + request.tokens <= cfg.maxTokens && request.tokens <= cfg.tokensToGenerate
    && (request.tokens == cfg.tokensToGenerate || tools.tokens(sent) + request.tokens == cfg.maxTokens)
  }

  /** Turn `k`: the conversation it started from takes turns and ends as the base prompt does or with the user, the
      answer is recorded after it, and the model is sent that conversation or the single-turn prompt, and asked for as
      much as is wanted or as there is room for. */
  ghost predicate ShapeOfTurn(cfg: Config, tools: Tools, base: Conversation, turns: Turns, o: Outcome, k: nat)
    requires k < |o.log.promptTurnsList| == |o.log.results| == |o.log.requests|
  {
    var said := o.log.promptTurnsList[k];
    && |said| > 0 && said[|said| - 1] == Message(Assistant, turns(k).replyText)
    && Continues(base, said[..|said| - 1])
    && (k > 0 && o.log.results[k - 1] == Unparsed ==> said[..|said| - 1] == base)
    && (cfg.deleteWrongTurns ==> |said| <= |base| + 3)
    && Asks(cfg, tools, o.log.requests[k], SentFor(cfg, tools, turns, k, said[..|said| - 1]))
  }
}
