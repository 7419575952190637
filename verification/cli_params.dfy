/**
 * Command-line parameters of the builder, `node app <site_name> <app_id>`.
 * Index 0 and 1 of the argument vector are the runtime and the script.
 */
module CliParams {
  import opened Wrappers

  /** The two identifiers every later step is derived from. */
  datatype Params = Params(siteName: string, appId: string)

  /** Which parameter was found missing first. */
  datatype ParamError = MissingSiteName | MissingAppId

  /**
   * Reads the site name from `argv[2]` and the app id from `argv[3]`; the
   * site name is checked first, so a vector lacking both reports the site name.
   */
  function GetCliParams(argv: seq<string>): (r: Result<Params, ParamError>)
    ensures r == Failure(MissingSiteName) <==> |argv| < 3
    ensures r == Failure(MissingAppId) <==> |argv| == 3
    ensures r.Success? <==> |argv| >= 4
    ensures r.Success? ==> r.value.siteName == argv[2] && r.value.appId == argv[3]
  {
    if |argv| <= 2 then Failure(MissingSiteName)
    else if |argv| <= 3 then Failure(MissingAppId)
    else Success(Params(argv[2], argv[3]))
  }

  /** Arguments after the app id never change the outcome. */
  lemma TrailingArgumentsIgnored(argv: seq<string>, extra: seq<string>)
    requires |argv| >= 4
    ensures GetCliParams(argv + extra) == GetCliParams(argv)
    ensures GetCliParams(argv + extra) == Success(Params(argv[2], argv[3]))
  {
  }
}
