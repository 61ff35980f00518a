/** The startup configuration check: the bot's own name and the target group name must both be set. */
module Config {
  import opened Wrappers

  /** The two settings the templates use once startup has succeeded. */
  datatype Configuration = Configuration(whoAmI: string, targetGroupName: string)
  {
    /** Both settings are set: what the startup check guarantees before any handler is registered. */
    predicate Valid()
    {
      whoAmI != "" && targetGroupName != ""
    }
  }

  /** Why startup refused to go on; the messages are those of the thrown errors. */
  datatype ConfigError = WhoAmINotSet | TargetGroupNameNotSet
  {
    function Message(): string
    {
      match this
      case WhoAmINotSet => "WB_WHO_AM_I is not set"
      case TargetGroupNameNotSet => "WB_TARGET_GROUP_NAME is not set"
    }
  }

  /** An environment variable counts as set when it is present and not the empty string
      (the empty string is falsy, so `!value` rejects it as well). */
  predicate IsSet(v: Option<string>)
  {
    v.Some? && v.value != ""
  }

  /** Reads `WB_WHO_AM_I` and then `WB_TARGET_GROUP_NAME`; the first one missing is the error. */
  function LoadConfig(whoAmI: Option<string>, targetGroupName: Option<string>): (r: Result<Configuration, ConfigError>)
    ensures r.Ok? <==> IsSet(whoAmI) && IsSet(targetGroupName)
    ensures r.Ok? ==> r.value.whoAmI == whoAmI.value && r.value.targetGroupName == targetGroupName.value
    ensures r.Ok? ==> r.value.Valid()
    ensures r == Err(WhoAmINotSet) <==> !IsSet(whoAmI)
    ensures r == Err(TargetGroupNameNotSet) <==> IsSet(whoAmI) && !IsSet(targetGroupName)
  {
    if !IsSet(whoAmI) then Err(WhoAmINotSet)
    else if !IsSet(targetGroupName) then Err(TargetGroupNameNotSet)
    else Ok(Configuration(whoAmI.value, targetGroupName.value))
  }
}
