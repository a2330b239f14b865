/** GraphQLError: one error entry of a GraphQL response. */
module Errors {
  import opened Wrappers
  import opened Json
  import opened Locations

  /**
   * Message and Locations may be null after decoding; AdditionalData holds
   * every other property of the error object, in enumeration order.
   */
  datatype GraphQLError = GraphQLError(
    message: Option<string>,
    locations: Option<seq<Option<GraphQLLocation>>>,
    additionalData: seq<Property>)
}
