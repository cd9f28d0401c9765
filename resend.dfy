/**
 * `getResendClient`: a module-level slot holding the email client, created on the first
 * call that finds the API key set, and returned from then on.
 */
module Resend {
  import opened Wrappers
  import opened Env

  /** A client made by `new Resend(apiKey)`. */
  class Client {
    const apiKey: string

    constructor (apiKey: string)
      ensures this.apiKey == apiKey
    {
      this.apiKey := apiKey;
    }
  }

  /** The module state: `resendInstance`, and a count of the clients ever constructed. */
  class Slot {
    var instance: Client?
    ghost var created: nat

    /** A client exists exactly when one was constructed, and never more than one was. */
    ghost predicate Valid()
      reads this
    {
      created == if instance == null then 0 else 1
    }

    constructor ()
      ensures Valid() && instance == null && created == 0
    {
      instance := null;
      created := 0;
    }

    /**
     * `getResendClient()`: null exactly when the API key is missing or empty, without touching
     * the slot; otherwise the cached client, constructed on the first such call only.
     */
    method GetResendClient(env: Config) returns (c: Client?)
      requires Valid()
      modifies this
      ensures Valid()
      ensures c == null <==> !ResendConfigured(env)
      ensures c == null ==> instance == old(instance) && created == old(created)
      ensures c != null ==> c == instance
      ensures old(instance) != null ==> instance == old(instance) && created == old(created)
      ensures old(instance) == null && c != null ==> fresh(c) && c.apiKey == env.resendApiKey.value && created == 1
    {
      if !Present(env.resendApiKey) {
        return null;
      }
      if instance == null {
        instance := new Client(env.resendApiKey.value);
        created := created + 1;
      }
      c := instance;
    }
  }

  /**
   * Any sequence of calls, each with its own environment: at most one client is ever constructed,
   * and every non-null result is the same instance, whatever key later calls see.
   */
  method CallRepeatedly(slot: Slot, envs: seq<Config>) returns (results: seq<Client?>)
    requires slot.Valid()
    modifies slot
    ensures slot.Valid() && slot.created <= 1
    ensures |results| == |envs|
    ensures forall i :: 0 <= i < |envs| ==> (results[i] == null <==> !ResendConfigured(envs[i]))
    ensures forall i :: 0 <= i < |envs| && results[i] != null ==> results[i] == slot.instance
    ensures old(slot.instance) != null ==> slot.instance == old(slot.instance)
  {
    results := [];
    var i := 0;
    while i < |envs|
      invariant 0 <= i <= |envs| && |results| == i
      invariant slot.Valid()
      invariant forall k :: 0 <= k < i ==> (results[k] == null <==> !ResendConfigured(envs[k]))
      invariant forall k :: 0 <= k < i && results[k] != null ==> results[k] == slot.instance
      invariant old(slot.instance) != null ==> slot.instance == old(slot.instance)
    {
      var c := slot.GetResendClient(envs[i]);
      results := results + [c];
      i := i + 1;
    }
  }
}
