/**
 * The collaborators the core calls but does not define: the colour renderer, the
 * timezone database and Go's fmt formatting.  They enter the model as
 * the fields of one Env value handed to every constructor.
 */
module Runtime {
  import opened Values

  /** A colour scheme; its renderer lives outside the core, so only its identity matters. */
  datatype ColorScheme = ColorScheme(name: string)

  /** A timezone resolved from the timezone database (time.Location). */
  datatype Location = Location(name: string)

  datatype Env = Env(
    localZone: string,                               // time.Local.String()
    defaultScheme: ColorScheme,                      // DefaultFatihColorScheme
    loadLocation: string -> Result<Location>,       // time.LoadLocation, with its error text
    colorize: (ColorScheme, int, string) -> string,  // (*ColorScheme).Colorize
    sprint: seq<Value> -> string,                    // fmt.Sprint
    sprintf: (string, seq<Value>) -> string)         // fmt.Sprintf

  /** fmt.Sprint of a single string operand is that string. */
  ghost predicate SprintsStrings(env: Env)
  {
    forall x: string :: env.sprint([Str(x)]) == x
  }

  /** The message after the optional colourising step: unchanged when no scheme is set. */
  function Paint(env: Env, scheme: Maybe<ColorScheme>, level: int, msg: string): string
  {
    if scheme.Some? then env.colorize(scheme.value, level, msg) else msg
  }
}
