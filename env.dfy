/** The environment variables the intake reads (`process.env`); each may be unset. */
module Env {
  import opened Wrappers

  datatype Config = Config(
    supabaseUrl: Option<string>,          // NEXT_PUBLIC_SUPABASE_URL
    supabaseServiceRoleKey: Option<string>, // SUPABASE_SERVICE_ROLE_KEY
    resendApiKey: Option<string>,         // RESEND_API_KEY
    resendFromEmail: Option<string>)      // RESEND_FROM_EMAIL

  /** JavaScript truthiness of an environment string: set and non-empty. */
  predicate Present(v: Option<string>) {
    v.Some? && v.value != ""
  }

  predicate SupabaseConfigured(c: Config) {
    Present(c.supabaseUrl) && Present(c.supabaseServiceRoleKey)
  }

  predicate ResendConfigured(c: Config) {
    Present(c.resendApiKey)
  }

  const DefaultFromEmail := "onboarding@resend.dev"

  /** `process.env.RESEND_FROM_EMAIL || "onboarding@resend.dev"`. */
  function FromEmail(c: Config): (r: string)
    ensures r != ""
    ensures Present(c.resendFromEmail) ==> r == c.resendFromEmail.value
    ensures !Present(c.resendFromEmail) ==> r == DefaultFromEmail
  {
    if Present(c.resendFromEmail) then c.resendFromEmail.value else DefaultFromEmail
  }
}
