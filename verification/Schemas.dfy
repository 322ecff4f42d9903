/** Names and types of the columns of a record batch. */
module Schemas {
  datatype Field = Field(name: string, dataType: string)

  type Schema = seq<Field>
}
