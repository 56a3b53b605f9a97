/** The environment-sourced settings read by the connector and the tool layer. */
module Config {

  import opened Wrappers

  datatype Settings = Settings(
    pulsarServiceUrl: string,
    pulsarWebServiceUrl: string,
    topicName: string,
    subscriptionName: string,
    subscriptionType: string,
    isTopicReadFromBeginning: bool,
    pulsarToken: Option<string>,
    pulsarTlsTrustCertsFilePath: Option<string>,
    pulsarTlsAllowInsecureConnection: bool)

  /** The defaults of the settings class. */
  const Defaults := Settings(
    "pulsar://localhost:6650",
    "http://localhost:8080",
    "my-topic",
    "pulsar-mcp-subscription",
    "Shared",
    false,
    None,
    None,
    false)
}
