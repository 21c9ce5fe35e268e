/**
 * The in-memory configuration: service types map to environments, and each
 * environment carries the attributes a console URL is built from.
 *
 * A Go map that is nil behaves like an empty map for every lookup and every
 * range loop in the core, so both are the empty Dafny map here.
 */
module Config {

  /** The attributes of one environment; an absent YAML field is the empty string. */
  datatype EnvironmentConfig = EnvironmentConfig(projectId: string, region: string, cluster: string)

  /** Environment name to its attributes (`ServiceTypeConfig.Environments`). */
  type ServiceTypeConfig = map<string, EnvironmentConfig>

  /** Service type name to its environments (`Config.Services`). */
  type Config = map<string, ServiceTypeConfig>
}
