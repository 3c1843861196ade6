/** API-key access control for tools (plugins/koala/auth.py): each key maps
    to the set of tool names it may call, where `*` grants every tool. */
module Auth {

  import opened Values

  /** `set(allowed_tools or [])`: no list, or an empty one, allows nothing. */
  function AllowedSet(allowedTools: Option<seq<string>>): (s: set<string>)
    ensures allowedTools.None? ==> s == {}
    ensures allowedTools.Some? ==> forall t :: t in s <==> t in allowedTools.value
  {
    if allowedTools.None? then {} else set t | t in allowedTools.value
  }

  /** The decision `is_allowed` takes on a given key table. */
  predicate Allows(keys: map<string, set<string>>, apiKey: string, toolName: string) {
    apiKey in keys && ("*" in keys[apiKey] || toolName in keys[apiKey])
  }

  class AuthManager {
    var keys: map<string, set<string>>

    constructor ()
      ensures keys == map[]
    {
      keys := map[];
    }

    /** Registers or replaces a key's permissions. */
    method RegisterApiKey(apiKey: string, allowedTools: Option<seq<string>>)
      modifies this
      ensures keys == old(keys)[apiKey := AllowedSet(allowedTools)]
      ensures forall t :: IsAllowed(apiKey, t) <==>
        allowedTools.Some? && ("*" in allowedTools.value || t in allowedTools.value)
      ensures forall k, t :: k != apiKey ==> (IsAllowed(k, t) <==> Allows(old(keys), k, t))
    {
      keys := keys[apiKey := AllowedSet(allowedTools)];
    }

    /** Forgets a key; an unknown key is ignored. */
    method UnregisterApiKey(apiKey: string)
      modifies this
      ensures keys == old(keys) - {apiKey}
      ensures forall t :: !IsAllowed(apiKey, t)
    {
      if apiKey in keys {
        keys := keys - {apiKey};
      }
    }

    /** Unknown keys are denied; `*` allows every tool; otherwise the tool
        must be listed. */
    predicate IsAllowed(apiKey: string, toolName: string)
      reads this
      ensures IsAllowed(apiKey, toolName) <==> Allows(keys, apiKey, toolName)
    {
      var allowed := if apiKey in keys then Some(keys[apiKey]) else None;
      if allowed.None? then false
      else if "*" in allowed.value then true
      else toolName in allowed.value
    }
  }

  /** A wildcard key may call every tool, a key with an empty list none. */
  lemma WildcardAndEmpty(keys: map<string, set<string>>, apiKey: string, toolName: string)
    ensures apiKey in keys && keys[apiKey] == AllowedSet(Some(["*"])) ==> Allows(keys, apiKey, toolName)
    ensures apiKey in keys && keys[apiKey] == AllowedSet(Some([])) ==> !Allows(keys, apiKey, toolName)
  {
    assert "*" in AllowedSet(Some(["*"]));
  }
}
