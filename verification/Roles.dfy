/** The roles, organization types and tenant scopes every part of the system shares. */
module Roles {
  datatype Role = PlatformSuperAdmin | AgencyOwner | AgencyOperator | ClientOwner
  datatype OrganizationType = Platform | Agency | Client

  /** A client organization and one of its projects. */
  datatype Tenant = Tenant(clientOrganizationId: string, projectId: string)

  predicate IsAgencyRole(role: Role) {
    role.AgencyOwner? || role.AgencyOperator?
  }
}
