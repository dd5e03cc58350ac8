/** The lifetime caps of a grant, decided twice: by the Go code that mints it and by the
    trigger that guards the table. */
module GrantTtl {
  import opened Base

  /** Text columns and Go strings: anything outside the known names is Other. */
  datatype Scope = RequestScope | ConnectionScope | DurationScope | SessionScope | OtherScope(name: string)

  datatype Sensitivity = Standard | High | Admin | OtherSensitivity(name: string)

  /** contracts.MaxGrantTTL */
  function MaxGrantTtl(scope: Scope, sensitivity: Sensitivity): Time {
    match scope
    case RequestScope => 30 * SECOND
    case ConnectionScope => 120 * SECOND
    case DurationScope => (match sensitivity case Standard => 15 * 60 * SECOND case High => 5 * 60 * SECOND case _ => 0)
    case SessionScope => (match sensitivity
                          case Standard => 8 * 3600 * SECOND
                          case High => 3600 * SECOND
                          case Admin => 30 * 60 * SECOND
                          case OtherSensitivity(_) => 0)
    case OtherScope(_) => 0
  }

  /** v_max_seconds of the trigger; no row gives a NULL sensitivity. */
  function TriggerSeconds(scope: Scope, sensitivity: Option<Sensitivity>): int {
    match scope
    case RequestScope => 30
    case ConnectionScope => 120
    case DurationScope => (match sensitivity case Some(Standard) => 900 case Some(High) => 300 case _ => 0)
    case SessionScope => (match sensitivity
                          case Some(Standard) => 28800
                          case Some(High) => 3600
                          case Some(Admin) => 1800
                          case _ => 0)
    case OtherScope(_) => 0
  }

  /** validate_grant_ttl lets the row in. */
  predicate TriggerAccepts(scope: Scope, sensitivity: Option<Sensitivity>, iat: Time, expires: Time) {
    TriggerSeconds(scope, sensitivity) != 0 && expires - iat <= TriggerSeconds(scope, sensitivity) * SECOND
  }

  /** The two caps agree on every scope and sensitivity, so the trigger accepts a lifetime
      exactly when the Go cap is positive and the lifetime respects it. */
  lemma CapsAgree(scope: Scope, sensitivity: Sensitivity, iat: Time, expires: Time)
    ensures TriggerSeconds(scope, Some(sensitivity)) * SECOND == MaxGrantTtl(scope, sensitivity)
    ensures TriggerAccepts(scope, Some(sensitivity), iat, expires) <==>
              MaxGrantTtl(scope, sensitivity) > 0 && expires - iat <= MaxGrantTtl(scope, sensitivity)
  {
  }
}
