/**
  What a query hands to the remote collection gateway: which endpoint, the
  bearer token read just before the call, and the request data
  `{collectionName, filter?, itemId?, update?}`. The transport itself is not modelled.
 */
module Gateway {
  import opened JsValues

  datatype Endpoint = Find | FindById | FindOne | FindByIdAndUpdate | FindByIdAndDelete

  datatype Request = Request(
    endpoint: Endpoint,
    token: string,
    collectionName: string,
    filter: Option<Props>,
    itemId: Option<string>,
    update: Option<Props>)
}
