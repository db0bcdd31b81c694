/**
  JSON values as Python holds them once loaded: an object is a dict, so the
  order of its members is not part of it.
 */
module Json {

  datatype Json<S> = Null | Bool(truth: bool) | Int(number: int) | Str(text: S) | Array(items: seq<Json<S>>) | Object(members: map<S, Json<S>>)
}
