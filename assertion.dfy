/**
 * The Assertion builder: a mutable record of scope {model, id}, entity
 * {model, id} and a permission mask, with the configuration constants it is
 * built against, its flat key/value form and its description.
 */
module Assertions {
  import opened Wrappers
  import opened Permissions
  import opened KeyCodec

  /** The configuration entries the library reads when it is loaded; None when absent. */
  datatype Settings = Settings(
    defaultPermissions: Option<seq<Token>>,  // assertion.default.permissions
    wildcard: Option<string>,                // assertion.operators.wildcard
    owner: Option<string>,                   // assertion.operators.owner
    delimiter: Option<char>)                 // assertion.delimiter

  /** The constants derived from the settings at load time. */
  datatype Config = Config(defaultPermission: int, wildcard: string, owner: string, delimiter: char)

  /**
   * getDefaultPermission: the configured tokens folded into an empty mask,
   * or no permission when nothing is configured.
   */
  function GetDefaultPermission(s: Settings): (p: int)
    ensures 0 <= p <= 7
    ensures s.defaultPermissions.None? ==> p == NONE
    ensures s.defaultPermissions.Some? ==> p == Combine(NONE, s.defaultPermissions.value)
  {
    match s.defaultPermissions
    case None => NONE
    case Some(tokens) =>
      CombineInRange(NONE, tokens);
      Combine(NONE, tokens)
  }

  /** The module constants: each setting or its built-in default. */
  function LoadConfig(s: Settings): (c: Config)
    ensures 0 <= c.defaultPermission <= 7
    ensures s.wildcard.None? ==> c.wildcard == "*"
    ensures s.owner.None? ==> c.owner == "@"
    ensures s.delimiter.None? ==> c.delimiter == ':'
    ensures s.wildcard.Some? ==> c.wildcard == s.wildcard.value
    ensures s.owner.Some? ==> c.owner == s.owner.value
    ensures s.delimiter.Some? ==> c.delimiter == s.delimiter.value
  {
    Config(GetDefaultPermission(s), s.wildcard.GetOr("*"), s.owner.GetOr("@"), s.delimiter.GetOr(':'))
  }

  /** JavaScript truthiness of an optional string argument. */
  predicate Truthy(arg: Option<string>) {
    arg.Some? && arg.value != ""
  }

  /** `arg || fallback` */
  function OrElse(arg: Option<string>, fallback: string): (r: string)
    ensures Truthy(arg) ==> r == arg.value
    ensures !Truthy(arg) ==> r == fallback
  {
    if Truthy(arg) then arg.value else fallback
  }

  /** A model name and an identifier. */
  datatype Party = Party(model: string, id: string)

  class Assertion {
    const config: Config
    var scope: Party
    var entity: Party
    var permissions: int

    /** Every falsy part becomes the wildcard; falsy permissions (absent or 0) the default. */
    constructor (config: Config, scopeModel: Option<string>, scopeId: Option<string>,
                 entityModel: Option<string>, entityId: Option<string>, permissions: Option<int>)
      ensures this.config == config
      ensures scope == Party(OrElse(scopeModel, config.wildcard), OrElse(scopeId, config.wildcard))
      ensures entity == Party(OrElse(entityModel, config.wildcard), OrElse(entityId, config.wildcard))
      ensures permissions.Some? && permissions.value != 0 ==> this.permissions == permissions.value
      ensures permissions.None? || permissions.value == 0 ==> this.permissions == config.defaultPermission
    {
      this.config := config;
      entity := Party(OrElse(entityModel, config.wildcard), OrElse(entityId, config.wildcard));
      this.permissions := if permissions.Some? && permissions.value != 0 then permissions.value
                          else config.defaultPermission;
      scope := Party(OrElse(scopeModel, config.wildcard), OrElse(scopeId, config.wildcard));
    }

    /** give: overwrites the scope model and id whose argument is truthy. */
    method Give(model: Option<string>, id: Option<string>) returns (self: Assertion)
      modifies this
      ensures self == this
      ensures scope == Party(OrElse(model, old(scope.model)), OrElse(id, old(scope.id)))
      ensures entity == old(entity) && permissions == old(permissions)
    {
      if Truthy(model) {
        scope := scope.(model := model.value);
      }
      if Truthy(id) {
        scope := scope.(id := id.value);
      }
      self := this;
    }

    /** entity: overwrites the entity model and id whose argument is truthy. */
    method Entity(model: Option<string>, id: Option<string>) returns (self: Assertion)
      modifies this
      ensures self == this
      ensures entity == Party(OrElse(model, old(entity.model)), OrElse(id, old(entity.id)))
      ensures scope == old(scope) && permissions == old(permissions)
    {
      if Truthy(model) {
        entity := entity.(model := model.value);
      }
      if Truthy(id) {
        entity := entity.(id := id.value);
      }
      self := this;
    }

    /** permission: folds its arguments into the current mask. */
    method Permission(tokens: seq<Token>) returns (self: Assertion)
      modifies this
      ensures self == this
      ensures permissions == Combine(old(permissions), tokens)
      ensures 0 <= old(permissions) <= 7 ==> 0 <= permissions <= 7
      ensures scope == old(scope) && entity == old(entity)
    {
      permissions := AddPermissions(Some(permissions), tokens);
      if 0 <= old(permissions) <= 7 {
        CombineInRange(old(permissions), tokens);
      }
      self := this;
    }

    function Parts(): KeyParts
      reads this
    {
      KeyParts(scope.model, scope.id, entity.model, entity.id)
    }

    /** key: the four parts joined by the configured delimiter, in key order. */
    function Key(): (k: string)
      reads this
      ensures DelimiterFree(config.delimiter, Parts()) ==> ParseKey(config.delimiter, k) == Some(Parts())
      ensures DelimiterFree(config.delimiter, Parts()) ==> multiset(k)[config.delimiter] == 3
    {
      var k := BuildKey(config.delimiter, Parts());
      assert DelimiterFree(config.delimiter, Parts()) ==> ParseKey(config.delimiter, k) == Some(Parts()) by {
        if DelimiterFree(config.delimiter, Parts()) {
          ParseBuildKey(config.delimiter, Parts());
        }
      }
      k
    }

    /** value: the permission mask the builder holds. */
    function Value(): (v: int)
      reads this
      ensures v == permissions
    {
      permissions
    }

    /** toObject: the single entry key() -> value(). */
    function ToObject(): (obj: map<string, int>)
      reads this
      ensures obj.Keys == {Key()}
      ensures obj[Key()] == Value()
    {
      map[Key() := Value()]
    }

    /** toString: the quoted key, " = ", and the description of the mask. */
    function ToString(): (r: string)
      reads this
      ensures |r| == |Key()| + 5 + |PermissionNumberToString(Value())|
      ensures r[..|Key()| + 2] == "\"" + Key() + "\""
      ensures r[|Key()| + 2..|Key()| + 5] == " = "
      ensures r[|Key()| + 5..] == PermissionNumberToString(Value())
    {
      "\"" + Key() + "\"" + " = " + PermissionNumberToString(Value())
    }
  }
}
