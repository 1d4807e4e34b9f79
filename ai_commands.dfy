/** ai_commands.go: the `/provider`, `/model` and `/aiconfig` commands, which
    read and write a user's choice of back-end and model. The preference
    store is the map `prefs`; the database handle's failure, the store's
    failures and what it reports for a user with no stored choice are
    inputs. The registry is seen through `listing` (the provider names) and
    `catalogue` (each known provider's models). */
module AICommands {
  import opened Wrappers
  import opened Strings

  /** A reply to an interaction; every reply of these commands is
      ephemeral. */
  datatype Response = Response(content: string, ephemeral: bool)

  /** A user's stored choice. */
  datatype Preference = Preference(provider: string, model: string)

  /** One option of the invoked command, as name and string value. */
  datatype CommandOption = CommandOption(name: string, value: string)

  /** `errorResponse`. */
  function ErrorResponse(message: string): (r: Response)
    ensures r.ephemeral
    ensures |r.content| == |message| + 7 && r.content[7..] == message && HasPrefix(r.content, "Error: ")
  {
    Response("Error: " + message, true)
  }

  const NoProviders: string := "No AI providers are configured"
  const SelectFirst: string := "First select a provider using `/provider name:<provider>`"
  const CannotAccessDatabase: string := "Cannot access database: "
  const CannotGetPreferences: string := "Cannot get preferences: "
  const CannotSavePreference: string := "Cannot save preference: "
  /** The model stored when a provider is selected. */
  const NoModel: string := "none"

  /** The value of the `name` option, when it is the first option. */
  function NameOption(options: seq<CommandOption>): string {
    if |options| > 0 && options[0].name == "name" then options[0].value else ""
  }

  /** The provider `providerCommand` asks for: the option lower-cased. */
  function SelectedProvider(options: seq<CommandOption>): (p: string)
    ensures ToLower(p) == p
    ensures |p| == |NameOption(options)|
  {
    ToLowerIdempotent(NameOption(options));
    ToLower(NameOption(options))
  }

  /** Whether a stored provider or model counts as chosen. */
  predicate Chosen(name: string) {
    name != "none" && name != ""
  }

  /** How `/aiconfig` shows a stored provider or model. */
  function Shown(name: string): (s: string)
    ensures !Chosen(name) ==> s == "Not selected"
    ensures Chosen(name) ==> s == name
  {
    if Chosen(name) then name else "Not selected"
  }

  /** Lines `• item` for each item, in order. */
  function Bullets(items: seq<string>): string {
    if items == [] then "" else Bullets(items[..|items| - 1]) + "• " + items[|items| - 1] + "\n"
  }

  /** The bullet list of a concatenation is the concatenation of the lists. */
  lemma {:induction false} BulletsAppend(a: seq<string>, b: seq<string>)
    ensures Bullets(a + b) == Bullets(a) + Bullets(b)
    decreases |b|
  {
    if b == [] {
      assert a + b == a;
    } else {
      var c := b[..|b| - 1];
      assert (a + b)[..|a + b| - 1] == a + c;
      BulletsAppend(a, c);
    }
  }

  /** Each item has its own line in the bullet list. */
  lemma {:induction false} BulletsListEach(items: seq<string>, k: nat)
    requires k < |items|
    ensures exists pre, post :: Bullets(items) == pre + "• " + items[k] + "\n" + post
    decreases |items|
  {
    var init := items[..|items| - 1];
    if k == |items| - 1 {
      assert Bullets(items) == Bullets(init) + "• " + items[k] + "\n" + "";
    } else {
      BulletsListEach(init, k);
      var pre, post :| Bullets(init) == pre + "• " + init[k] + "\n" + post;
      var tail := "• " + items[|items| - 1] + "\n";
      assert Bullets(items) == pre + "• " + items[k] + "\n" + (post + tail);
    }
  }

  const ProvidersHeader: string := "**Available AI Providers:**\n"
  const ProvidersUsage: string := "\nUsage: `/provider name:<provider>`"
  const ModelsUsage: string := "\nUsage: `/model name:<model>`"

  /** The error text for a provider the registry does not know. */
  function UnknownProvider(providerName: string, listing: seq<string>): string {
    "Provider '" + providerName + "' not found. Available: " + Join(listing, ", ")
  }

  /** The reply to a successful provider selection. */
  function ProviderSelected(providerName: string, models: seq<string>): string {
    "Selected provider: **" + providerName + "**\n\n**Available models:**\n"
    + Join(models, ", ") + "\n\nNext, use `/model name:<model>` to choose a model."
  }

  /** The reply to a successful model selection. */
  function ModelSet(modelName: string, providerName: string): string {
    "Model set to **" + modelName + "** for **" + providerName + "**"
  }

  /** The `/aiconfig` text for a stored choice. */
  function ConfigText(p: Preference): string {
    "**Your AI Configuration:**\n"
    + "Provider: " + Shown(p.provider) + "\n"
    + "Model: " + Shown(p.model) + "\n"
    + "\n**Available commands:**\n"
    + "• `/provider` - View and set your AI provider\n"
    + "• `/model` - View and set your AI model\n"
  }

  class AICommandHandler {
    /** `GetAvailableProviders` of the service. */
    const listing: seq<string>
    /** `GetProvider`: the providers it knows, with `GetAvailableModels` of
        each. */
    const catalogue: map<string, seq<string>>
    /** The preference store: user ID to (provider, model). */
    var prefs: map<string, Preference>

    constructor (listing: seq<string>, catalogue: map<string, seq<string>>, prefs: map<string, Preference>)
      ensures this.listing == listing && this.catalogue == catalogue && this.prefs == prefs
    {
      this.listing := listing;
      this.catalogue := catalogue;
      this.prefs := prefs;
    }

    /** `GetUserPreference`: the stored choice, or `unset` for a user with
        none; `readErr` when the read fails. */
    function Lookup(userId: string, readErr: Option<string>, unset: Preference): (r: Result<Preference, string>)
      reads this
      ensures readErr.Some? <==> r.Failure?
      ensures r.Success? && userId in prefs ==> r.value == prefs[userId]
    {
      if readErr.Some? then Failure(readErr.value)
      else if userId in prefs then Success(prefs[userId])
      else Success(unset)
    }

    /** `listProvidersResponse`: the provider names as a bullet list with a
        usage line, or an error when there is none. */
    method ListProvidersResponse() returns (r: Response)
      ensures r.ephemeral
      ensures listing == [] ==> r == ErrorResponse(NoProviders)
      ensures listing != [] ==> r.content == ProvidersHeader + Bullets(listing) + ProvidersUsage
    {
      if |listing| == 0 {
        return ErrorResponse(NoProviders);
      }
      var response := ProvidersHeader;
      for i := 0 to |listing|
        invariant response == ProvidersHeader + Bullets(listing[..i])
      {
        assert listing[..i + 1][..i] == listing[..i];
        response := response + "• " + listing[i] + "\n";
      }
      assert listing[..|listing|] == listing;
      r := Response(response + ProvidersUsage, true);
    }

    /** `setProviderResponse`: an unknown provider is an error listing the
        known ones; otherwise the choice becomes (provider, "none") and the
        reply lists the provider's models. Nothing is written on an error. */
    method SetProviderResponse(userId: string, providerName: string, dbErr: Option<string>, saveErr: Option<string>)
      returns (r: Response)
      modifies this
      ensures r.ephemeral
      ensures providerName !in catalogue ==> r == ErrorResponse(UnknownProvider(providerName, listing))
      ensures providerName in catalogue && dbErr.Some? ==> r == ErrorResponse(CannotAccessDatabase + dbErr.value)
      ensures providerName in catalogue && dbErr.None? && saveErr.Some? ==>
        r == ErrorResponse(CannotSavePreference + saveErr.value)
      ensures providerName in catalogue && dbErr.None? && saveErr.None? ==>
        prefs == old(prefs)[userId := Preference(providerName, NoModel)]
        && r.content == ProviderSelected(providerName, catalogue[providerName])
      ensures !(providerName in catalogue && dbErr.None? && saveErr.None?) ==> prefs == old(prefs)
    {
      if providerName !in catalogue {
        return ErrorResponse(UnknownProvider(providerName, listing));
      }
      if dbErr.Some? {
        return ErrorResponse(CannotAccessDatabase + dbErr.value);
      }
      if saveErr.Some? {
        return ErrorResponse(CannotSavePreference + saveErr.value);
      }
      prefs := prefs[userId := Preference(providerName, NoModel)];
      r := Response(ProviderSelected(providerName, catalogue[providerName]), true);
    }

    /** `providerCommand`: lists the providers when no name is given,
        otherwise selects the lower-cased name. */
    method ProviderCommand(userId: string, options: seq<CommandOption>, dbErr: Option<string>, saveErr: Option<string>)
      returns (r: Response)
      modifies this
      ensures r.ephemeral
      ensures NameOption(options) == "" ==> prefs == old(prefs) && (listing == [] ==> r == ErrorResponse(NoProviders))
      ensures NameOption(options) == "" && listing != [] ==> r.content == ProvidersHeader + Bullets(listing) + ProvidersUsage
      ensures NameOption(options) != "" ==>
        var p := SelectedProvider(options);
        && (p !in catalogue ==> r == ErrorResponse(UnknownProvider(p, listing)) && prefs == old(prefs))
        && (p in catalogue && dbErr.Some? ==>
              r == ErrorResponse(CannotAccessDatabase + dbErr.value) && prefs == old(prefs))
        && (p in catalogue && dbErr.None? && saveErr.Some? ==>
              r == ErrorResponse(CannotSavePreference + saveErr.value) && prefs == old(prefs))
        && (p in catalogue && dbErr.None? && saveErr.None? ==>
              prefs == old(prefs)[userId := Preference(p, NoModel)] && r.content == ProviderSelected(p, catalogue[p]))
    {
      var selected := SelectedProvider(options);
      if selected == "" {
        r := ListProvidersResponse();
        return;
      }
      r := SetProviderResponse(userId, selected, dbErr, saveErr);
    }

    /** `listModelsResponse`: the provider's models as a bullet list with a
        usage line; an error for an unknown provider. */
    method ListModelsResponse(providerName: string) returns (r: Response)
      ensures r.ephemeral
      ensures providerName !in catalogue ==> r == ErrorResponse("Provider '" + providerName + "' not found")
      ensures providerName in catalogue ==>
        r.content == "**Available models for " + providerName + ":**\n" + Bullets(catalogue[providerName]) + ModelsUsage
    {
      if providerName !in catalogue {
        return ErrorResponse("Provider '" + providerName + "' not found");
      }
      var models := catalogue[providerName];
      var response := "**Available models for " + providerName + ":**\n";
      for i := 0 to |models|
        invariant response == "**Available models for " + providerName + ":**\n" + Bullets(models[..i])
      {
        assert models[..i + 1][..i] == models[..i];
        response := response + "• " + models[i] + "\n";
      }
      assert models[..|models|] == models;
      r := Response(response + ModelsUsage, true);
    }

    /** `setModelResponse`: stores (provider, model) without checking the
        model against the provider's list. */
    method SetModelResponse(userId: string, providerName: string, modelName: string,
                            dbErr: Option<string>, saveErr: Option<string>)
      returns (r: Response)
      modifies this
      ensures r.ephemeral
      ensures dbErr.Some? ==> r == ErrorResponse(CannotAccessDatabase + dbErr.value) && prefs == old(prefs)
      ensures dbErr.None? && saveErr.Some? ==>
        r == ErrorResponse(CannotSavePreference + saveErr.value) && prefs == old(prefs)
      ensures dbErr.None? && saveErr.None? ==>
        prefs == old(prefs)[userId := Preference(providerName, modelName)]
        && r.content == ModelSet(modelName, providerName)
    {
      if dbErr.Some? {
        return ErrorResponse(CannotAccessDatabase + dbErr.value);
      }
      if saveErr.Some? {
        return ErrorResponse(CannotSavePreference + saveErr.value);
      }
      prefs := prefs[userId := Preference(providerName, modelName)];
      r := Response(ModelSet(modelName, providerName), true);
    }

    /** `modelCommand`: needs a chosen provider; lists its models when no
        name is given, otherwise stores the model. The handle was opened by
        the first lookup, so the second one (inside `setModelResponse`) hits
        the cache and cannot fail. */
    method ModelCommand(userId: string, options: seq<CommandOption>, dbErr: Option<string>,
                        readErr: Option<string>, unset: Preference, saveErr: Option<string>)
      returns (r: Response)
      modifies this
      ensures r.ephemeral
      ensures dbErr.Some? ==> r == ErrorResponse(CannotAccessDatabase + dbErr.value) && prefs == old(prefs)
      ensures dbErr.None? && readErr.Some? ==>
        r == ErrorResponse(CannotGetPreferences + readErr.value) && prefs == old(prefs)
      ensures dbErr.None? && old(Lookup(userId, readErr, unset)).Success? ==>
        var current := old(Lookup(userId, readErr, unset)).value.provider;
        (!Chosen(current) ==> r == ErrorResponse(SelectFirst) && prefs == old(prefs))
        && (Chosen(current) && NameOption(options) == "" ==>
              prefs == old(prefs)
              && (current !in catalogue ==> r == ErrorResponse("Provider '" + current + "' not found"))
              && (current in catalogue ==>
                    r.content == "**Available models for " + current + ":**\n" + Bullets(catalogue[current]) + ModelsUsage))
        && (Chosen(current) && NameOption(options) != "" && saveErr.Some? ==>
              r == ErrorResponse(CannotSavePreference + saveErr.value))
        && (Chosen(current) && NameOption(options) != "" && saveErr.None? ==>
              prefs == old(prefs)[userId := Preference(current, NameOption(options))]
              && r.content == ModelSet(NameOption(options), current))
        && (saveErr.Some? ==> prefs == old(prefs))
    {
      if dbErr.Some? {
        return ErrorResponse(CannotAccessDatabase + dbErr.value);
      }
      var stored := Lookup(userId, readErr, unset);
      if stored.Failure? {
        return ErrorResponse(CannotGetPreferences + stored.error);
      }
      var providerName := stored.value.provider;
      if providerName == "none" || providerName == "" {
        return ErrorResponse(SelectFirst);
      }
      var selected := NameOption(options);
      if selected == "" {
        r := ListModelsResponse(providerName);
        return;
      }
      r := SetModelResponse(userId, providerName, selected, None, saveErr);
    }

    /** `aiConfigCommand`: the stored provider and model, "Not selected" for
        "none" or "", and the command summary. */
    function AIConfigCommand(userId: string, dbErr: Option<string>, readErr: Option<string>, unset: Preference): (r: Response)
      reads this
      ensures r.ephemeral
      ensures dbErr.Some? ==> r == ErrorResponse(CannotAccessDatabase + dbErr.value)
      ensures dbErr.None? && readErr.Some? ==> r == ErrorResponse(CannotGetPreferences + readErr.value)
      ensures dbErr.None? && readErr.None? ==>
        var p := if userId in prefs then prefs[userId] else unset;
        r.content == ConfigText(p)
    {
      if dbErr.Some? then ErrorResponse(CannotAccessDatabase + dbErr.value)
      else
        match Lookup(userId, readErr, unset)
        case Failure(e) => ErrorResponse(CannotGetPreferences + e)
        case Success(p) => Response(ConfigText(p), true)
    }
  }
}
