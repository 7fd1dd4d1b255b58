/** The records exchanged with the Rainforest API (package `rainforest`). */
module Rainforest {

  /** The fixed label of every environment the command line creates for a custom URL. */
  const TemporaryEnvName: string := "temporary-env-for-custom-url-via-CLI"

  /** The body sent when an environment is created. */
  datatype EnvironmentParams = EnvironmentParams(name: string, url: string)

  /** An environment as the service returns it. */
  datatype Environment = Environment(id: int, name: string, isDefault: bool)

  /** The parameters of a new run; the zero value of Go's struct is `EmptyRunParams`. */
  datatype RunParams = RunParams(tests: seq<int>, crowd: string, browsers: seq<string>, environmentID: int)

  const EmptyRunParams: RunParams := RunParams([], "", [], 0)

  /** The status of a created run; only its identity is used here. */
  datatype RunStatus = RunStatus(id: int)

  /** The request `CreateTemporaryEnvironment` sends for a URL. */
  function TemporaryEnvironmentParams(url: string): EnvironmentParams
  {
    EnvironmentParams(TemporaryEnvName, url)
  }
}
