/**
 * The simple client of examples/hello_world.py: the same estimate and
 * first-match table lookup as the token manager, over its own, shorter
 * table, and its prompt-size check.
 */
module HelloWorld {
  import opened Text
  import TokenManagement

  /** OllamaClient.model_limits: no phi3 and no llama3.1:70b entry */
  const ModelLimits: TokenManagement.LimitTable := [
    ("llama3.2:3b", 8192),
    ("llama3.2:1b", 8192),
    ("llama3.1:8b", 8192),
    ("codellama:7b", 16384),
    ("mistral:7b", 8192)
  ]

  /** get_token_limit: the first pattern contained in the lower-cased name, else 4096 */
  function GetTokenLimit(modelName: string): int {
    TokenManagement.TableLimit(ModelLimits, ToLower(modelName))
  }

  /** The lookup ignores the case of the model name. */
  lemma GetTokenLimitIgnoresCase(modelName: string)
    ensures GetTokenLimit(modelName) == GetTokenLimit(ToLower(modelName))
  {
    ToLowerIdempotent(modelName);
  }

  /** the first matching entry decides; a name no pattern occurs in gets 4096 */
  lemma GetTokenLimitSpec(modelName: string)
    ensures forall i :: TokenManagement.FirstMatchAt(ModelLimits, ToLower(modelName), i) ==>
      GetTokenLimit(modelName) == ModelLimits[i].1
    ensures (forall i :: 0 <= i < |ModelLimits| ==> !Contains(ToLower(modelName), ModelLimits[i].0)) ==>
      GetTokenLimit(modelName) == 4096
  {
    TokenManagement.TableLimitSpec(ModelLimits, ToLower(modelName));
  }

  /**
   * Without a phi3 entry that model gets the default here, while the token
   * manager's table knows it.
   */
  lemma Phi3GetsDefault()
    ensures GetTokenLimit("phi3:3.8b") == 4096
    ensures TokenManagement.GetContextLimit("phi3:3.8b", "") == 4096
  {
  }

  /** Without a llama3.1:70b entry that model gets the default: no pattern occurs in its name. */
  lemma Llama70bGetsDefault()
    ensures GetTokenLimit("llama3.1:70b") == 4096
  {
    ToLowerFixes("llama3.1:70b");
    Llama70bMissesLlamaPatterns();
    Llama70bMissesOthers();
    GetTokenLimitSpec("llama3.1:70b");
  }

  lemma Llama70bMissesLlamaPatterns()
    ensures !Contains("llama3.1:70b", "llama3.2:3b")
    ensures !Contains("llama3.1:70b", "llama3.2:1b")
    ensures !Contains("llama3.1:70b", "llama3.1:8b")
  {
    var name := "llama3.1:70b";
    ContainsOneLonger(name, "llama3.2:3b");
    ContainsOneLonger(name, "llama3.2:1b");
    ContainsOneLonger(name, "llama3.1:8b");
    assert name[..11][7] == '1' && name[..11][9] == '7';
    assert name[1..][1] == 'a';
  }

  lemma Llama70bMissesOthers()
    ensures !Contains("llama3.1:70b", "codellama:7b")
    ensures !Contains("llama3.1:70b", "mistral:7b")
  {
    var name := "llama3.1:70b";
    NotContainsByFirst(name, "codellama:7b");
    NotContainsByFirst(name, "mistral:7b");
  }

  /** codellama resolves to 16384, whatever the case of its name. */
  lemma CodellamaLimit()
    ensures GetTokenLimit("codellama:7b") == 16384
    ensures GetTokenLimit("CodeLlama:7B") == 16384
  {
    CodellamaMatch();
    CodellamaLowered();
    GetTokenLimitIgnoresCase("CodeLlama:7B");
  }

  lemma CodellamaLowered()
    ensures ToLower("CodeLlama:7B") == "codellama:7b"
  {
  }

  /** the codellama entry is the first whose pattern occurs in the name */
  lemma CodellamaMatch()
    ensures GetTokenLimit("codellama:7b") == 16384
  {
    var name := "codellama:7b";
    ToLowerFixes(name);
    NotContainsByFirst(name, "llama3.2:3b");
    NotContainsByFirst(name, "llama3.2:1b");
    NotContainsByFirst(name, "llama3.1:8b");
    ContainsSelf(name);
    assert TokenManagement.FirstMatchAt(ModelLimits, name, 3);
    GetTokenLimitSpec(name);
  }

  datatype PromptInfo = PromptInfo(tokens: nat, limit: int, fits: bool)

  /**
   * check_prompt_size: the estimate, the limit, and whether the estimate is
   * below 80% of the limit (`tokens < limit * 0.8`, scaled to integers).
   */
  function CheckPromptSize(modelName: string, prompt: string): (r: PromptInfo)
    ensures 4 * r.tokens <= |prompt| < 4 * r.tokens + 4
    ensures r.tokens == TokenManagement.EstimateTokens(prompt)
    ensures r.limit == GetTokenLimit(modelName)
    ensures r.fits <==> 5 * r.tokens < 4 * r.limit
  {
    var tokens := |prompt| / 4;
    var limit := GetTokenLimit(modelName);
    PromptInfo(tokens, limit, 5 * tokens < 4 * limit)
  }
}
