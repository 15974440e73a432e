/** `build_remote_claude_command` as the source writes it: two vectors filled in loops, then joined. */
module Ssh {
  import opened Wrappers
  import opened SshModel

  lemma TextsConcat(a: seq<EnvPart>, b: seq<EnvPart>)
    ensures EnvTexts(a + b) == EnvTexts(a) + EnvTexts(b)
  {
  }

  method PushCredentials(r: Request) returns (claudeParts: seq<string>)
    ensures claudeParts == EnvTexts(CredentialParts(r))
  {
    assert "ANTHROPIC_API_KEY" + "=" == "ANTHROPIC_API_KEY=" && "ANTHROPIC_AUTH_TOKEN" + "=" == "ANTHROPIC_AUTH_TOKEN=";
    assert "ANTHROPIC_BASE_URL" + "=" == "ANTHROPIC_BASE_URL=";
    assert "ANTHROPIC_API_KEY=" + "" == "ANTHROPIC_API_KEY=" && "ANTHROPIC_AUTH_TOKEN=" + "" == "ANTHROPIC_AUTH_TOKEN=";
    hide ShellEscape;
    claudeParts := [];
    if r.apiKey.Some? {
      claudeParts := claudeParts + ["ANTHROPIC_API_KEY=" + ShellEscape(r.apiKey.value)];
      claudeParts := claudeParts + ["ANTHROPIC_AUTH_TOKEN="];
    }
    if r.authToken.Some? {
      claudeParts := claudeParts + ["ANTHROPIC_AUTH_TOKEN=" + ShellEscape(r.authToken.value)];
      claudeParts := claudeParts + ["ANTHROPIC_API_KEY="];
    }
    if r.baseUrl.Some? {
      claudeParts := claudeParts + ["ANTHROPIC_BASE_URL=" + ShellEscape(r.baseUrl.value)];
    }
  }

  method PushTiers(models: seq<string>, before: seq<string>) returns (claudeParts: seq<string>)
    ensures claudeParts == before + EnvTexts(ModelTiers(models))
  {
    hide ModelTiers, EnvText;
    claudeParts := before;
    var tiers := ModelTiers(models);
    var i := 0;
    while i < |tiers|
      invariant 0 <= i <= |tiers|
      invariant claudeParts == before + EnvTexts(tiers[..i])
    {
      claudeParts := claudeParts + [EnvText(tiers[i])];
      TextsConcat(tiers[..i], [tiers[i]]);
      assert tiers[..i + 1] == tiers[..i] + [tiers[i]];
      assert EnvTexts([tiers[i]]) == [EnvText(tiers[i])];
      i := i + 1;
    }
    assert tiers[..i] == tiers;
  }

  /** Keys with other characters than upper-case letters, digits and underscores are skipped. */
  method PushExtra(extra: seq<(string, string)>, before: seq<string>) returns (claudeParts: seq<string>)
    ensures claudeParts == before + EnvTexts(ExtraParts(extra))
  {
    hide KeyAccepted;
    claudeParts := before;
    var i := 0;
    while i < |extra|
      invariant 0 <= i <= |extra|
      invariant claudeParts == before + EnvTexts(ExtraParts(extra[..i]))
    {
      assert extra[..i + 1][..i] == extra[..i];
      var (k, v) := extra[i];
      if KeyAccepted(k) {
        claudeParts := claudeParts + [k + "=" + ShellEscape(v)];
        TextsConcat(ExtraParts(extra[..i]), [EnvPart(k, v, true)]);
      } else {
        assert ExtraParts(extra[..i]) + [] == ExtraParts(extra[..i]);
      }
      i := i + 1;
    }
    assert extra[..i] == extra;
  }

  method BuildRemoteClaudeCommand(r: Request) returns (command: string)
    ensures command == Build(r)
  {
    hide CredentialParts, ModelTiers, ExtraParts, ShellEscapePath;
    var parts := ["cd " + ShellEscapePath(r.cwd)];
    var claudeParts := PushCredentials(r);
    ghost var env := CredentialParts(r);
    if r.models.Some? {
      claudeParts := PushTiers(r.models.value, claudeParts);
    }
    ghost var tiers := if r.models.Some? then ModelTiers(r.models.value) else [];
    TextsConcat(env, tiers);
    claudeParts := PushExtra(r.extraEnv, claudeParts);
    TextsConcat(env + tiers, ExtraParts(r.extraEnv));
    claudeParts := claudeParts + ["CLAUDE_CODE_ENABLE_SDK_FILE_CHECKPOINTING=1"];
    assert "CLAUDE_CODE_ENABLE_SDK_FILE_CHECKPOINTING" + "=" + "1" == "CLAUDE_CODE_ENABLE_SDK_FILE_CHECKPOINTING=1";
    TextsConcat(env + tiers + ExtraParts(r.extraEnv), [EnvPart("CLAUDE_CODE_ENABLE_SDK_FILE_CHECKPOINTING", "1", false)]);
    assert claudeParts == EnvTexts(EnvParts(r));
    claudeParts := claudeParts + [ShellEscapePath(Bin(r))];
    ghost var prefix := claudeParts;
    var i := 0;
    while i < |r.args|
      invariant 0 <= i <= |r.args|
      invariant claudeParts == prefix + ArgTexts(r.args[..i])
    {
      claudeParts := claudeParts + [ShellEscape(r.args[i])];
      assert ArgTexts(r.args[..i + 1]) == ArgTexts(r.args[..i]) + [ShellEscape(r.args[i])];
      i := i + 1;
    }
    assert r.args[..i] == r.args;
    parts := parts + [Join(claudeParts, " ")];
    command := Join(parts, " && ");
  }
}
