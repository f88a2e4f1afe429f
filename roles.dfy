/**
 * Roles as the role-update middleware sees them. The role object's own
 * module is not part of this model: a role is its snowflake id plus the rest
 * of its decoded fields, which the update never inspects.
 */
module Roles {
  import opened Payload

  /** A snowflake id, treated as an opaque integer. */
  type Snowflake = int

  datatype Role = Role(id: Snowflake, name: string, attributes: Dict)
}
