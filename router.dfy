/** Navigation requests, recorded as events instead of performed. */
module Router {
  const LoginRoute: string := "/login"
  const DashboardRoute: string := "/dashboard"

  /** `router.replace(path)`, `router.push(path)`, or a `router.push(path)` scheduled after `delayMs`. */
  datatype Navigation =
    | Replace(path: string)
    | Push(path: string)
    | PushAfter(path: string, delayMs: nat)
}
