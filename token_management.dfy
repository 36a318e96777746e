/**
 * Token budgeting for local models (examples/token_management.py): the
 * four-characters-per-token estimate, the context limit of a model (from the
 * `num_ctx` parameter of its modelfile, else from a table of name patterns,
 * else 4096), the 80% "fits" rule, prompt truncation, and the truncation
 * decision taken before a generate call.
 */
module TokenManagement {
  import opened Wrappers
  import opened Text
  import opened Service

  /** the conservative limit for a model no pattern matches */
  const DefaultLimit: int := 4096

  /** (pattern, limit) pairs in the order the table is searched */
  type LimitTable = seq<(string, int)>

  /** TokenManager.model_limits */
  const ModelLimits: LimitTable := [
    ("llama3.2:3b", 8192),
    ("llama3.2:1b", 8192),
    ("llama3.1:8b", 8192),
    ("llama3.1:70b", 8192),
    ("codellama:7b", 16384),
    ("mistral:7b", 8192),
    ("phi3:3.8b", 4096)
  ]

  // ---------------------------------------------------------------------
  // Token estimate: `len(text) // 4`

  /** the number of whole four-character groups in the text */
  function EstimateTokens(text: string): (n: nat)
    ensures 4 * n <= |text| < 4 * n + 4
  {
    |text| / 4
  }

  /** A longer text never has a smaller estimate. */
  lemma EstimateMonotone(a: string, b: string)
    requires |a| <= |b|
    ensures EstimateTokens(a) <= EstimateTokens(b)
  {
  }

  /** Appending text never lowers the estimate of either part. */
  lemma EstimateConcat(a: string, b: string)
    ensures EstimateTokens(a + b) >= EstimateTokens(a)
    ensures EstimateTokens(a + b) >= EstimateTokens(b)
  {
    EstimateMonotone(a, a + b);
    EstimateMonotone(b, a + b);
  }

  /** The estimate is zero for every text shorter than four characters, and only for those. */
  lemma EstimateZero(text: string)
    ensures EstimateTokens(text) == 0 <==> |text| < 4
  {
  }

  // ---------------------------------------------------------------------
  // Table fallback: the first pattern contained in the (lower-cased) name

  function TableLimit(table: LimitTable, name: string): int {
    if table == [] then DefaultLimit
    else if Contains(name, table[0].0) then table[0].1
    else TableLimit(table[1..], name)
  }

  /** entry i is the first whose pattern occurs in name */
  predicate FirstMatchAt(table: LimitTable, name: string, i: int) {
    && 0 <= i < |table|
    && Contains(name, table[i].0)
    && forall j :: 0 <= j < i ==> !Contains(name, table[j].0)
  }

  /**
   * The table lookup yields the limit of the first entry, in table order,
   * whose pattern occurs in the name, and the default when none does.
   */
  lemma {:induction false} TableLimitSpec(table: LimitTable, name: string)
    ensures forall i :: FirstMatchAt(table, name, i) ==> TableLimit(table, name) == table[i].1
    ensures (forall i :: 0 <= i < |table| ==> !Contains(name, table[i].0)) ==> TableLimit(table, name) == DefaultLimit
    decreases |table|
  {
    if table != [] && !Contains(name, table[0].0) {
      TableLimitSpec(table[1..], name);
      forall i | FirstMatchAt(table, name, i) ensures TableLimit(table, name) == table[i].1 {
        assert i != 0;
        assert FirstMatchAt(table[1..], name, i - 1);
      }
      if forall i :: 0 <= i < |table| ==> !Contains(name, table[i].0) {
        assert forall i :: 0 <= i < |table[1..]| ==> table[1..][i] == table[i + 1];
      }
    }
  }

  // ---------------------------------------------------------------------
  // `num_ctx` in the modelfile reported by the service

  /** `int(line.split()[-1])`, None where that raises */
  function LastTokenValue(line: string): Option<int> {
    var ws := Words(line);
    if ws == [] then None else ParseInt(ws[|ws| - 1])
  }

  /** a line the loop returns from: it mentions num_ctx and its last token is an integer */
  predicate UsableLine(line: string) {
    Contains(line, "num_ctx") && LastTokenValue(line).Some?
  }

  /** the value of the first usable line */
  function FirstNumCtx(lines: seq<string>): Option<int> {
    if lines == [] then None
    else if UsableLine(lines[0]) then LastTokenValue(lines[0])
    else FirstNumCtx(lines[1..])
  }

  /** the num_ctx the modelfile declares, if any line declares a readable one */
  function ModelfileNumCtx(modelfile: string): Option<int> {
    if Contains(modelfile, "num_ctx") then FirstNumCtx(Split(modelfile, '\n')) else None
  }

  /**
   * Lines that fail to parse are skipped: the value comes from the first
   * usable line, and there is none exactly when no line is usable.
   */
  lemma {:induction false} FirstNumCtxSpec(lines: seq<string>)
    ensures FirstNumCtx(lines).None? <==> forall i :: 0 <= i < |lines| ==> !UsableLine(lines[i])
    ensures forall i :: 0 <= i < |lines| && UsableLine(lines[i]) && (forall j :: 0 <= j < i ==> !UsableLine(lines[j])) ==>
      FirstNumCtx(lines) == LastTokenValue(lines[i])
    decreases |lines|
  {
    if lines != [] && !UsableLine(lines[0]) {
      FirstNumCtxSpec(lines[1..]);
      assert forall i :: 0 <= i < |lines[1..]| ==> lines[1..][i] == lines[i + 1];
      forall i | 0 <= i < |lines| && UsableLine(lines[i]) && (forall j :: 0 <= j < i ==> !UsableLine(lines[j]))
        ensures FirstNumCtx(lines) == LastTokenValue(lines[i])
      {
        assert i != 0;
        assert forall j :: 0 <= j < i - 1 ==> !UsableLine(lines[1..][j]) by {
          forall j | 0 <= j < i - 1 ensures !UsableLine(lines[1..][j]) {
            assert lines[1..][j] == lines[j + 1];
          }
        }
      }
    }
  }

  /** get_context_limit: the modelfile's num_ctx, else the table, else 4096 */
  function GetContextLimit(modelName: string, modelfile: string): int {
    match ModelfileNumCtx(modelfile)
    case Some(v) => v
    case None => TableLimit(ModelLimits, ToLower(modelName))
  }

  /** Without model information the limit comes from the table; an unknown model gets the default. */
  lemma ContextLimitFallback(modelName: string, modelfile: string)
    requires forall i :: 0 <= i < |ModelLimits| ==> !Contains(ToLower(modelName), ModelLimits[i].0)
    requires !Contains(modelfile, "num_ctx")
    ensures GetContextLimit(modelName, modelfile) == DefaultLimit
  {
    TableLimitSpec(ModelLimits, ToLower(modelName));
  }

  // ---------------------------------------------------------------------
  // check_prompt_size

  datatype PromptCheck = PromptCheck(estimatedTokens: nat, contextLimit: int, fits: bool, tokensRemaining: int)

  /**
   * The prompt fits when its estimate is below 80% of the limit
   * (`estimated < limit * 0.8`, scaled to integers); the remaining tokens
   * may be negative.
   */
  function CheckPromptSize(modelName: string, modelfile: string, prompt: string): (r: PromptCheck)
    ensures r.estimatedTokens == EstimateTokens(prompt)
    ensures r.contextLimit == GetContextLimit(modelName, modelfile)
    ensures r.fits <==> 5 * r.estimatedTokens < 4 * r.contextLimit
    ensures r.tokensRemaining == r.contextLimit - r.estimatedTokens
  {
    var estimated := EstimateTokens(prompt);
    var limit := GetContextLimit(modelName, modelfile);
    PromptCheck(estimated, limit, 5 * estimated < 4 * limit, limit - estimated)
  }

  /** A prompt that fits leaves more than a fifth of the limit for the reply. */
  lemma FitsLeavesHeadroom(modelName: string, modelfile: string, prompt: string)
    ensures var r := CheckPromptSize(modelName, modelfile, prompt);
      r.fits <==> 5 * r.tokensRemaining > r.contextLimit
  {
  }

  // ---------------------------------------------------------------------
  // truncate_prompt

  function TruncatePrompt(prompt: string, maxTokens: int, keepEnd: bool): string {
    if EstimateTokens(prompt) <= maxTokens then prompt
    else if keepEnd then "..." + SliceFrom(prompt, -(maxTokens * 4))
    else SliceTo(prompt, maxTokens * 4) + "..."
  }

  /** A prompt within the budget is returned unchanged. */
  lemma TruncateWithinBudget(prompt: string, maxTokens: int, keepEnd: bool)
    requires EstimateTokens(prompt) <= maxTokens
    ensures TruncatePrompt(prompt, maxTokens, keepEnd) == prompt
  {
  }

  /**
   * Keeping the end: "..." then the last 4*maxTokens characters; the result
   * is within the budget.
   */
  lemma TruncateKeepEnd(prompt: string, maxTokens: int)
    requires maxTokens > 0 && EstimateTokens(prompt) > maxTokens
    ensures 4 * maxTokens < |prompt|
    ensures TruncatePrompt(prompt, maxTokens, true) == "..." + prompt[|prompt| - 4 * maxTokens..]
    ensures EstimateTokens(TruncatePrompt(prompt, maxTokens, true)) <= maxTokens
  {
  }

  /**
   * Keeping the start: the first 4*maxTokens characters then "..."; the
   * result is within the budget.
   */
  lemma TruncateKeepStart(prompt: string, maxTokens: int)
    requires maxTokens > 0 && EstimateTokens(prompt) > maxTokens
    ensures 4 * maxTokens < |prompt|
    ensures TruncatePrompt(prompt, maxTokens, false) == prompt[..4 * maxTokens] + "..."
    ensures EstimateTokens(TruncatePrompt(prompt, maxTokens, false)) <= maxTokens
  {
  }

  /**
   * The Python edge case: with a zero budget `prompt[-0:]` is the whole
   * prompt, so keeping the end makes the prompt longer instead of shorter.
   */
  lemma TruncateZeroKeepEnd(prompt: string)
    requires |prompt| >= 4
    ensures TruncatePrompt(prompt, 0, true) == "..." + prompt
    ensures |TruncatePrompt(prompt, 0, true)| > |prompt|
  {
  }

  // ---------------------------------------------------------------------
  // generate_with_token_check

  /** `int(limit * 0.6)`: three fifths, truncated toward zero */
  function SafeLimit(limit: int): (r: int)
    ensures limit >= 0 ==> 0 <= 5 * r <= 3 * limit < 5 * r + 5
    ensures limit < 0 ==> 0 <= 5 * -r <= 3 * -limit < 5 * -r + 5
  {
    if limit >= 0 then limit * 3 / 5 else -((-limit) * 3 / 5)
  }

  /** the JSON body posted to /api/generate */
  datatype GenerateRequest = GenerateRequest(model: string, prompt: string, stream: bool, numPredict: Option<int>)

  /** the result dict */
  datatype Generation = Generation(
    tokenInfo: PromptCheck,
    originalPrompt: string,
    finalPrompt: string,
    response: Option<string>,
    truncated: bool,
    error: Option<string>)

  /** the options field is sent only for a truthy max_tokens */
  function NumPredict(maxTokens: Option<int>): Option<int> {
    if maxTokens.Some? && maxTokens.value != 0 then maxTokens else None
  }

  /**
   * Checks the prompt, truncates it (keeping its end) to 60% of the limit when
   * it does not fit, builds the request, and records what the service
   * answered. `modelfile` is what /api/show reported ("" when nothing) and
   * `reply` the service's answer to the request.
   */
  method GenerateWithTokenCheck(model: string, prompt: string, modelfile: string, maxTokens: Option<int>, reply: Reply)
    returns (request: GenerateRequest, result: Generation)
    ensures result.tokenInfo == CheckPromptSize(model, modelfile, prompt)
    ensures result.originalPrompt == prompt
    ensures result.truncated <==> !result.tokenInfo.fits
    ensures result.truncated ==> result.finalPrompt == TruncatePrompt(prompt, SafeLimit(result.tokenInfo.contextLimit), true)
    ensures !result.truncated ==> result.finalPrompt == prompt
    ensures request == GenerateRequest(model, result.finalPrompt, false, NumPredict(maxTokens))
    ensures result.response == ResponseText(reply)
    ensures result.error.Some? <==> reply.Raised?
    ensures reply.Raised? ==> result.error == Some(reply.message)
  {
    var tokenCheck := CheckPromptSize(model, modelfile, prompt);
    result := Generation(tokenCheck, prompt, prompt, None, false, None);
    if !tokenCheck.fits {
      var safeLimit := SafeLimit(tokenCheck.contextLimit);
      result := result.(finalPrompt := TruncatePrompt(prompt, safeLimit, true), truncated := true);
    }
    request := GenerateRequest(model, result.finalPrompt, false, None);
    if maxTokens.Some? && maxTokens.value != 0 {
      request := request.(numPredict := maxTokens);
    }
    match reply {
      case Answered(status, response) =>
        if status == 200 {
          result := result.(response := Some(response.GetOr("")));
        }
      case Raised(message) =>
        result := result.(error := Some(message));
    }
  }

  /**
   * When a prompt does not fit and 60% of the limit is positive, the prompt
   * sent after truncation is within that 60%.
   */
  lemma TruncatedPromptWithinSafeLimit(model: string, prompt: string, modelfile: string)
    requires !CheckPromptSize(model, modelfile, prompt).fits
    requires SafeLimit(GetContextLimit(model, modelfile)) > 0
    ensures var safe := SafeLimit(GetContextLimit(model, modelfile));
      EstimateTokens(TruncatePrompt(prompt, safe, true)) <= safe
  {
    var safe := SafeLimit(GetContextLimit(model, modelfile));
    if EstimateTokens(prompt) > safe {
      TruncateKeepEnd(prompt, safe);
    }
  }

  /** The demo's model table: an unknown model never fails and gets the default. */
  lemma KnownLimits()
    ensures GetContextLimit("phi3:3.8b", "") == 4096
    ensures GetContextLimit("llama3.2:3b", "") == 8192
    ensures GetContextLimit("gemma:2b", "") == DefaultLimit
  {
    ContainsTooLong("", "num_ctx");
    Phi3Limit();
    Llama3bLimit();
    UnknownLimit();
  }

  /** phi3:3.8b is longer than no earlier pattern, so only its own entry matches */
  lemma Phi3Limit()
    ensures TableLimit(ModelLimits, ToLower("phi3:3.8b")) == 4096
  {
    var phi := "phi3:3.8b";
    ToLowerFixes(phi);
    ContainsSelf(phi);
    forall j | 0 <= j < 6 ensures !Contains(phi, ModelLimits[j].0) {
      ContainsTooLong(phi, ModelLimits[j].0);
    }
    assert FirstMatchAt(ModelLimits, phi, 6);
    TableLimitSpec(ModelLimits, phi);
  }

  lemma Llama3bLimit()
    ensures TableLimit(ModelLimits, ToLower("llama3.2:3b")) == 8192
  {
    var llama := "llama3.2:3b";
    ToLowerFixes(llama);
    ContainsSelf(llama);
    assert FirstMatchAt(ModelLimits, llama, 0);
    TableLimitSpec(ModelLimits, llama);
  }

  lemma UnknownLimit()
    ensures TableLimit(ModelLimits, ToLower("gemma:2b")) == DefaultLimit
  {
    var gemma := "gemma:2b";
    ToLowerFixes(gemma);
    forall j | 0 <= j < |ModelLimits| ensures !Contains(gemma, ModelLimits[j].0) {
      ContainsTooLong(gemma, ModelLimits[j].0);
    }
    TableLimitSpec(ModelLimits, gemma);
  }
}
