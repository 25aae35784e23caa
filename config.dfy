/** The client configuration: a value, so whatever is built from it holds
    copies of its fields and never a reference back to it. */
module KubeConfig {

  datatype Config = Config(baseURL: string, username: string, password: string)
}
