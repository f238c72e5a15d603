/** `BaseClient` from scripts/clients/base.py: the message history every
    client keeps, and the lookup of a client's configuration by name. */
module BaseClient {
  import opened Wrappers
  import opened Text
  import opened Json

  /** A chat message, as far as the history is concerned. */
  datatype Message = Message(role: string, content: string)

  /** `add_message` takes one message or a list of them. */
  datatype MessageInput = OneMessage(message: Message) | MessageList(messages: seq<Message>)

  /** One top-level section of client_configs.json: its name, its client names
      in file order, and each client's configuration. */
  datatype Section = Section(name: string, clientOrder: seq<string>, clients: map<string, Dict>)

  /** A section whose listed names are exactly its keys, once each, as for a
      dict read from JSON. */
  ghost predicate WellFormedSection(s: Section) {
    && (forall i, j :: 0 <= i < j < |s.clientOrder| ==> s.clientOrder[i] != s.clientOrder[j])
    && (forall n :: n in s.clientOrder <==> n in s.clients)
  }

  /** The KeyError raised for an unknown client, with the client names it lists. */
  datatype ConfigError = UnknownClient(clientType: string, availableClients: seq<string>)

  /** The index of the first section, in file order, that has the client. */
  function FirstSectionWith(sections: seq<Section>, clientType: string): (r: Option<nat>)
    ensures r.Some? ==> r.value < |sections| && clientType in sections[r.value].clients
    ensures r.Some? ==> forall j :: 0 <= j < r.value ==> clientType !in sections[j].clients
    ensures r.None? ==> forall j :: 0 <= j < |sections| ==> clientType !in sections[j].clients
  {
    if sections == [] then None
    else
      var before := FirstSectionWith(sections[..|sections| - 1], clientType);
      if before.Some? then before
      else if clientType in sections[|sections| - 1].clients then Some(|sections| - 1)
      else None
  }

  /** Every section's client names, section after section. */
  function AvailableClients(sections: seq<Section>): (names: seq<string>)
    ensures forall n :: n in names <==> exists j :: 0 <= j < |sections| && n in sections[j].clientOrder
  {
    if sections == [] then []
    else
      var init := sections[..|sections| - 1];
      var names := AvailableClients(init) + sections[|sections| - 1].clientOrder;
      assert forall j :: 0 <= j < |init| ==> init[j] == sections[j];
      names
  }

  /** The configuration returned for a client found in a section: a copy with
      `_section` naming that section. */
  function TaggedConfig(section: Section, clientType: string): (r: Dict)
    requires clientType in section.clients
    ensures r.Keys == section.clients[clientType].Keys + {"_section"}
    ensures r["_section"] == JString(section.name)
  {
    section.clients[clientType]["_section" := JString(section.name)]
  }

  class Client {
    var messageHistory: seq<Message>

    /** A client starts with the given history, or an empty one. */
    constructor(messageHistory: Option<seq<Message>>)
      ensures this.messageHistory == messageHistory.GetOr([])
    {
      this.messageHistory := messageHistory.GetOr([]);
    }

    /** `add_message`: a list extends the history in order, a single message is
        appended. */
    method AddMessage(input: MessageInput)
      modifies this
      ensures input.MessageList? ==> messageHistory == old(messageHistory) + input.messages
      ensures input.OneMessage? ==> messageHistory == old(messageHistory) + [input.message]
    {
      match input
      case MessageList(ms) => messageHistory := messageHistory + ms;
      case OneMessage(m) => messageHistory := messageHistory + [m];
    }

    /** `clear_history`. */
    method ClearHistory()
      modifies this
      ensures messageHistory == []
    {
      messageHistory := [];
    }

    /** `load_client_config` over the parsed sections: the first section that has
        the client gives its configuration tagged with the section's name;
        otherwise a KeyError lists every client name of every section. The
        sections are read from JSON, so each lists exactly its own clients. */
    method LoadClientConfig(configs: seq<Section>, clientType: string) returns (r: Result<Dict, ConfigError>)
      requires forall s :: s in configs ==> WellFormedSection(s)
      ensures FirstSectionWith(configs, clientType).Some? ==>
        r == Ok(TaggedConfig(configs[FirstSectionWith(configs, clientType).value], clientType))
      ensures FirstSectionWith(configs, clientType).None? ==>
        r == Err(UnknownClient(clientType, AvailableClients(configs)))
    {
      for i := 0 to |configs|
        invariant forall j :: 0 <= j < i ==> clientType !in configs[j].clients
      {
        if clientType in configs[i].clients {
          var clientConfig := configs[i].clients[clientType];
          clientConfig := clientConfig["_section" := JString(configs[i].name)];
          return Ok(clientConfig);
        }
      }
      var availableClients := [];
      for i := 0 to |configs|
        invariant availableClients == AvailableClients(configs[..i])
      {
        assert configs[..i + 1][..i] == configs[..i];
        availableClients := availableClients + configs[i].clientOrder;
      }
      assert configs[..|configs|] == configs;
      r := Err(UnknownClient(clientType, availableClients));
    }
  }

  /** The returned configuration keeps every setting of the stored one except
      `_section`, which names the section it came from. */
  lemma TaggedConfigKeepsSettings(section: Section, clientType: string, key: string)
    requires clientType in section.clients
    ensures "_section" in TaggedConfig(section, clientType)
    ensures TaggedConfig(section, clientType)["_section"] == JString(section.name)
    ensures key != "_section" ==>
      (key in TaggedConfig(section, clientType) <==> key in section.clients[clientType]) &&
      (key in section.clients[clientType] ==> TaggedConfig(section, clientType)[key] == section.clients[clientType][key])
  {
  }

  /** On well-formed sections, a client is unknown exactly when the KeyError's
      list does not name it. */
  lemma UnknownIffNotListed(sections: seq<Section>, clientType: string)
    requires forall j :: 0 <= j < |sections| ==> WellFormedSection(sections[j])
    ensures FirstSectionWith(sections, clientType).None? <==> clientType !in AvailableClients(sections)
  {
    if FirstSectionWith(sections, clientType).Some? {
      var i := FirstSectionWith(sections, clientType).value;
      assert clientType in sections[i].clientOrder;
    }
  }

  /** A client listed in two sections is found in the earlier one. */
  lemma EarlierSectionWins(sections: seq<Section>, clientType: string, i: nat, k: nat)
    requires i < k < |sections|
    requires clientType in sections[i].clients && clientType in sections[k].clients
    requires forall j :: 0 <= j < i ==> clientType !in sections[j].clients
    ensures FirstSectionWith(sections, clientType) == Some(i)
  {
  }
}
