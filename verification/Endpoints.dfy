/** The identity of an upstream H3 endpoint. */
module Endpoints {
  datatype Key = Key(address: string, serverName: string)
}
