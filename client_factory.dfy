/**
 * `ClientFactory`: the registry of LLM client implementations. Python keeps
 * the dict in a class attribute shared by every caller; here it is the state
 * of one `ClientFactory` object.
 */
module ClientFactory {
  import opened Values
  import opened Registry

  /** The class every registered client must derive from. */
  const BaseClient: string := "BaseClient"

  /** The parameters of `RolaiClient.__init__`, none with a default. */
  const RolaiParameters: seq<string> := ["base_url", "organization_id", "auth_token"]

  /** The one implementation registered from the start; it implements every
      abstract method of `BaseClient`. */
  const RolaiClient: PyClass :=
    PyClass("RolaiClient", [BaseClient, "ABC", "object"], Signature(RolaiParameters, [], false), false)

  /** `_clients` as the class body defines it. */
  const InitialClients: Entries := [("rolai", RolaiClient)]

  class ClientFactory {
    var clients: Entries

    constructor ()
      ensures clients == InitialClients
    {
      clients := InitialClients;
    }

    /** `register_client(name, client_class)`. */
    method RegisterClient(name: string, clientClass: PyClass) returns (r: Result<()>)
      modifies this
      ensures r.Err? <==> !clientClass.IsSubclassOf(BaseClient)
      ensures r.Err? ==> r.error == TypeError && clients == old(clients)
      ensures r.Ok? ==> clients == Put(old(clients), name, clientClass)
    {
      var registered := Registered(clients, BaseClient, name, clientClass);
      if registered.Err? {
        return Err(registered.error);
      }
      clients := registered.value;
      r := Ok(());
    }

    /** `create_client(client_type, **kwargs)`. */
    method CreateClient(clientType: string, kwargs: Fields) returns (r: Result<Instance>)
      ensures clientType !in Names(clients) ==> r == Err(UnknownRegisteredType(clientType, Names(clients)))
      ensures clientType in Names(clients) ==> r == Instantiate(Find(clients, clientType).value, kwargs)
    {
      r := CreatedInstance(clients, clientType, kwargs);
    }
  }

  /** At first only 'rolai' is known: it gives `RolaiClient`, and any
      other name raises the `ValueError` listing ['rolai']. */
  lemma InitialClientRegistry(clientType: string)
    ensures Created(InitialClients, clientType) ==
      if clientType == "rolai" then Ok(RolaiClient)
      else Err(UnknownRegisteredType(clientType, ["rolai"]))
  {
    assert Names(InitialClients) == ["rolai"];
  }

  /** `create_client('rolai', **kwargs)` builds a client exactly when the
      arguments are `base_url`, `organization_id` and `auth_token`, no more
      and no fewer; anything else raises TypeError. */
  lemma RolaiNeedsItsThreeArguments(kwargs: Fields)
    ensures CreatedInstance(InitialClients, "rolai", kwargs).Ok? <==>
      (forall k | k in Keys(kwargs) :: k in RolaiParameters) && (forall p | p in RolaiParameters :: p in Keys(kwargs))
    ensures CreatedInstance(InitialClients, "rolai", kwargs).Err? ==> CreatedInstance(InitialClients, "rolai", kwargs).error == TypeError
  {
    assert Names(InitialClients) == ["rolai"];
  }

  /** `create_client('rolai')` with no arguments raises TypeError. */
  lemma RolaiWithoutArgumentsRaises()
    ensures CreatedInstance(InitialClients, "rolai", []) == Err(TypeError)
  {
    RolaiNeedsItsThreeArguments([]);
    assert "base_url" in RolaiParameters && "base_url" !in Keys([]);
  }
}
