/** What the pipeline of a stopped recording does with its text: which stages run,
    what is inserted, and when insertion is refused. */
module Pipeline {
  import opened Wrappers
  import opened LlmText
  import opened StateMachines

  datatype OutputMode = Keyboard | Clipboard | NoOutput

  datatype Settings = Settings(
    removeFillers: bool, postEnabled: bool, rewriteEnabled: bool, mode: OutputMode, historyEnabled: bool)

  /** A language-model stage within its time limit. */
  datatype Reply = Text(text: string) | Failed | TimedOut

  /** Everything the pipeline is given: settings, which providers exist, whether a
      terminal had the focus, the transcript, the transcript without filler words and
      the replies of the providers. */
  datatype Job = Job(
    settings: Settings, hasProcessor: bool, hasRewriter: bool, isTerminal: bool,
    raw: string, withoutFillers: string, cleanup: Reply, rewrite: Reply)
  {
    function Cleaned(): string { if settings.removeFillers then withoutFillers else raw }

    predicate Blank() { Trim(Cleaned()) == "" }

    predicate WantsPostProcessing() { settings.postEnabled && hasProcessor && !Blank() }

    predicate WantsRewrite() { settings.rewriteEnabled && !Blank() }

    predicate WantsTextProcessing() { WantsPostProcessing() || WantsRewrite() }

    predicate WantsOutput() { settings.mode != NoOutput && !Blank() }

    /** The state that completing the transcription leads to. */
    function Planned(): DictationState {
      if WantsTextProcessing() then PostProcessing else if WantsOutput() then Injecting else Idle
    }

    /** The reply of the clean-up stage, if that stage runs and says something. */
    function CleanedUp(): Option<string> {
      if Planned() == PostProcessing && !WantsRewrite() && hasProcessor && cleanup.Text? && Trim(cleanup.text) != ""
      then Some(cleanup.text) else None
    }

    function Processed(): string { if CleanedUp().Some? then CleanedUp().value else Cleaned() }

    /** The reply of the rewriting stage, if that stage runs and says something. */
    function Rewritten(): Option<string> {
      if WantsRewrite() && hasRewriter && rewrite.Text? && Trim(rewrite.text) != "" then Some(rewrite.text) else None
    }

    function FinalText(): string { if Rewritten().Some? then Rewritten().value else Processed() }

    predicate FromModel() { CleanedUp().Some? || Rewritten().Some? }
  }

  /** What is put out, and whether. */
  datatype Outcome = Outcome(output: string, refused: bool, inject: bool)

  function Decide(job: Job, alnum: AlphaNum): (o: Outcome) {
    var (output, refused) :=
      if job.FromModel() then
        match PrepareLlmInsertion(job.FinalText(), job.isTerminal, alnum)
        case Insert(text) => (text, false)
        case Empty => (job.FinalText(), false)
        case RefusedMultilineTerminal(text) => (text, true)
      else (job.FinalText(), false);
    Outcome(output, refused, job.WantsOutput() && !refused && output != "")
  }

  /** The decision to insert agrees with the state the machine is in: a session that
      skipped post-processing was sent to Injecting exactly when it inserts. */
  lemma DecisionFitsState(job: Job, alnum: AlphaNum)
    ensures job.Planned() == Injecting ==> Decide(job, alnum).inject
    ensures job.Planned() == Idle ==> !Decide(job, alnum).inject
  {}

  /** The rule for terminals: text from a model is refused there exactly because of
      a line break; nothing else is ever refused. */
  lemma RefusedExactly(job: Job, alnum: AlphaNum)
    ensures var o := Decide(job, alnum);
            && (o.refused <==>
                  job.isTerminal && job.FromModel() && ContainsLineBreak(CleanLlmOutput(job.FinalText(), alnum)))
            && (o.refused ==> !o.inject && ContainsLineBreak(o.output))
            && (!job.FromModel() ==> o.output == if job.settings.removeFillers then job.withoutFillers else job.raw)
  {}

  /** Model text inserted into a terminal has a line break exactly when it is a
      fenced block around nothing, which cleaning empties. */
  lemma TerminalSafetyIff(job: Job, alnum: AlphaNum)
    requires job.isTerminal && job.FromModel() && Decide(job, alnum).inject
    ensures ContainsLineBreak(Decide(job, alnum).output) <==> CleanLlmOutput(job.FinalText(), alnum) == ""
  {
    if CleanLlmOutput(job.FinalText(), alnum) == "" { OnlyFencesCleanToNothing(job.FinalText(), alnum); }
  }

  /** That case is real for a provider that does not clean its replies. */
  lemma EmptyBlockIsInserted(job: Job, alnum: AlphaNum)
    requires job.settings == Settings(false, true, false, Keyboard, false) && job.hasProcessor && job.isTerminal
    requires job.raw == "a" && job.cleanup == Text("```\n```")
    ensures Decide(job, alnum) == Outcome("```\n```", false, true)
  {
    hide FencedContent, Trim, CleanLlmOutput;
    TrimStays("a");
    EmptyBlock(alnum);
  }

  /** The model's text came through the shipped provider, which cleans replies and
      turns empty ones into errors. */
  ghost predicate ProvidedReply(job: Job, alnum: AlphaNum) {
    exists content :: ProviderResult(content, alnum) == Some(job.FinalText())
  }

  /** Text that came through the shipped provider is never found empty again and is
      put out as it is. */
  lemma ProvidedNeverEmpty(job: Job, alnum: AlphaNum)
    ensures job.FromModel() && ProvidedReply(job, alnum) ==>
              && !PrepareLlmInsertion(job.FinalText(), job.isTerminal, alnum).Empty?
              && Decide(job, alnum).output == job.FinalText()
              && (Decide(job, alnum).refused <==> job.isTerminal && ContainsLineBreak(job.FinalText()))
  {
    hide PrepareLlmInsertion, ProviderResult, Job.FinalText, ContainsLineBreak;
    if job.FromModel() && ProvidedReply(job, alnum) {
      var content :| ProviderResult(content, alnum) == Some(job.FinalText());
      ProviderReplyIsInsertable(content, job.isTerminal, alnum);
    }
  }

  // ------------------------------------- the decision by settings and replies alone

  /** The one reply that counts for a transcript `t`, if there is one: rewriting comes
      instead of clean-up, nothing is asked about a blank transcript, and a blank reply
      does not count. */
  function ModelReply(job: Job, t: string): Option<string> {
    var (asked, reply) := if job.settings.rewriteEnabled then (job.hasRewriter, job.rewrite)
                          else (job.settings.postEnabled && job.hasProcessor, job.cleanup);
    if asked && Trim(t) != "" && reply.Text? && Trim(reply.text) != "" then Some(reply.text) else None
  }

  /** What is put out, and whether it is inserted, told from what the job holds. */
  lemma DecisionIs(job: Job, alnum: AlphaNum)
    ensures var t := if job.settings.removeFillers then job.withoutFillers else job.raw;
            var o, reply := Decide(job, alnum), ModelReply(job, t);
            && o.output == (if reply.None? then t
                            else if CleanLlmOutput(reply.value, alnum) == "" then reply.value
                            else CleanLlmOutput(reply.value, alnum))
            && (o.refused <==>
                  reply.Some? && job.isTerminal && ContainsLineBreak(CleanLlmOutput(reply.value, alnum)))
            && (o.inject <==> job.settings.mode != NoOutput && Trim(t) != "" && !o.refused && o.output != "")
  {
    hide CleanLlmOutput, ContainsLineBreak, Trim;
    NoBreakInNothing();
  }

  lemma NoBreakInNothing()
    ensures !ContainsLineBreak("")
  {}

  /** Where completing the transcription leads: to post-processing if a stage is wanted
      for a transcript that is not blank, else to insertion if output is. */
  lemma PlanIs(job: Job)
    ensures var t, s := if job.settings.removeFillers then job.withoutFillers else job.raw, job.settings;
            job.Planned() ==
              if Trim(t) == "" then Idle
              else if s.rewriteEnabled || (s.postEnabled && job.hasProcessor) then PostProcessing
              else if s.mode == NoOutput then Idle else Injecting
  {
    hide Trim;
  }

  /** At most one provider is asked: the reply of one of them counts, or the transcript
      goes out, exactly if output is wanted and it is not blank. */
  lemma OneModelStage(job: Job, alnum: AlphaNum)
    ensures !(job.CleanedUp().Some? && job.Rewritten().Some?)
    ensures var t := if job.settings.removeFillers then job.withoutFillers else job.raw;
            var reply := ModelReply(job, t);
            && (job.FromModel() <==> reply.Some?)
            && (reply.Some? ==> job.FinalText() == reply.value)
            && (reply.None? ==> Decide(job, alnum) == Outcome(t, false, job.settings.mode != NoOutput && Trim(t) != ""))
  {
    assert Trim("") == "";
  }
}
