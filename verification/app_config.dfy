/** The static API server configuration both the builder and the content collector read. */
module AppConfig {

  /** Host name and port of the remote API (`AppConfig.api.server`). */
  datatype ServerConfig = ServerConfig(hostname: string, port: int)
}
