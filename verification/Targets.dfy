/** What a connection, a health record and a breaker belong to: one server for one tenant. */
module Targets {
  datatype Target = Target(serverId: string, tenantId: string)
}
