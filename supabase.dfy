/**
 * `getSupabaseServer`: a module-level slot holding the server client, created on the first
 * call that finds both the URL and the service key set, and returned from then on.
 */
module Supabase {
  import opened Wrappers
  import opened Env

  /** A client made by `createClient(url, key)`. */
  class Client {
    const url: string
    const key: string

    constructor (url: string, key: string)
      ensures this.url == url && this.key == key
    {
      this.url := url;
      this.key := key;
    }
  }

  /** The module state: `supabaseInstance`, and a count of the clients ever created. */
  class Slot {
    var instance: Client?
    ghost var created: nat

    /** A client exists exactly when one was created, and never more than one was. */
    ghost predicate Valid()
      reads this
    {
      created == if instance == null then 0 else 1
    }

    constructor ()
      ensures Valid() && instance == null && created == 0
    {
      instance := null;
      created := 0;
    }

    /**
     * `getSupabaseServer()`: null exactly when the URL or the key is missing or empty, without
     * touching the slot; otherwise the cached client, created on the first such call only.
     */
    method GetSupabaseServer(env: Config) returns (c: Client?)
      requires Valid()
      modifies this
      ensures Valid()
      ensures c == null <==> !SupabaseConfigured(env)
      ensures c == null ==> instance == old(instance) && created == old(created)
      ensures c != null ==> c == instance
      ensures old(instance) != null ==> instance == old(instance) && created == old(created)
      ensures old(instance) == null && c != null ==>
        fresh(c) && c.url == env.supabaseUrl.value && c.key == env.supabaseServiceRoleKey.value && created == 1
    {
      if !Present(env.supabaseUrl) || !Present(env.supabaseServiceRoleKey) {
        return null;
      }
      if instance == null {
        instance := new Client(env.supabaseUrl.value, env.supabaseServiceRoleKey.value);
        created := created + 1;
      }
      c := instance;
    }
  }

  /**
   * Any sequence of calls, each with its own environment: at most one client is ever created,
   * and every non-null result is the same instance, whatever URL or key later calls see.
   */
  method CallRepeatedly(slot: Slot, envs: seq<Config>) returns (results: seq<Client?>)
    requires slot.Valid()
    modifies slot
    ensures slot.Valid() && slot.created <= 1
    ensures |results| == |envs|
    ensures forall i :: 0 <= i < |envs| ==> (results[i] == null <==> !SupabaseConfigured(envs[i]))
    ensures forall i :: 0 <= i < |envs| && results[i] != null ==> results[i] == slot.instance
    ensures old(slot.instance) != null ==> slot.instance == old(slot.instance)
  {
    results := [];
    var i := 0;
    while i < |envs|
      invariant 0 <= i <= |envs| && |results| == i
      invariant slot.Valid()
      invariant forall k :: 0 <= k < i ==> (results[k] == null <==> !SupabaseConfigured(envs[k]))
      invariant forall k :: 0 <= k < i && results[k] != null ==> results[k] == slot.instance
      invariant old(slot.instance) != null ==> slot.instance == old(slot.instance)
    {
      var c := slot.GetSupabaseServer(envs[i]);
      results := results + [c];
      i := i + 1;
    }
  }
}
