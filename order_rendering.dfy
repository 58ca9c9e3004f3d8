/** Rendering an order through OrderSerializer (orders/serializers.py), as
    the views do after a transition. A model serializer builds one field
    per name of its field list: a name must be declared on the serializer
    or be a field of the model; any other name fails the rendering with
    ImproperlyConfigured, which no view catches. */
module OrderRendering {
  import opened Common
  import opened Orders

  /** The fields OrderSerializer declares itself. */
  const DeclaredFields: set<string> := {"items", "restaurant", "address_id"}

  /** OrderSerializer.Meta.fields as written. */
  const OrderSerializerFieldsAsWritten: set<string> := {
    "id", "code", "address", "comment", "total_price", "delivery_fee", "status", "created_at",
    "items", "restaurant", "address_id", "preparation_time", "estimated_delivery_time"}

  /** The same with the address shown from address_text and the two
      timing fields, which Order does not have, dropped. */
  const OrderSerializerFields: set<string> :=
    OrderSerializerFieldsAsWritten - {"address", "preparation_time", "estimated_delivery_time"} + {"address_text"}

  /** The names of a field list that are neither declared nor model fields. */
  function UnknownFields(fields: set<string>): (unknown: set<string>)
    ensures forall f :: f in unknown <==> f in fields && f !in DeclaredFields && f !in FieldNames
  {
    fields - DeclaredFields - FieldNames
  }

  /** The reply of `Response(OrderSerializer(order).data)`: 200 when every
      name resolves, otherwise 500. */
  function RenderOrder(fields: set<string>): (reply: Reply)
    ensures reply == Success || reply == ServerError
    ensures reply == Success <==> forall f :: f in fields ==> f in DeclaredFields || f in FieldNames
  {
    if UnknownFields(fields) == {} then Success else ServerError
  }

  /** As written, three names of the field list resolve to nothing, so
      every rendering of an order answers 500. */
  lemma OrderSerializerAsWrittenFails()
    ensures UnknownFields(OrderSerializerFieldsAsWritten) == {"address", "preparation_time", "estimated_delivery_time"}
    ensures RenderOrder(OrderSerializerFieldsAsWritten) == ServerError
  {
    assert "address" in UnknownFields(OrderSerializerFieldsAsWritten);
    assert UnknownFields(OrderSerializerFieldsAsWritten) <= {"address", "preparation_time", "estimated_delivery_time"};
  }

  /** With the corrected list every name resolves and the order renders. */
  lemma OrderSerializerFieldsResolve()
    ensures UnknownFields(OrderSerializerFields) == {}
    ensures RenderOrder(OrderSerializerFields) == Success
  {
    assert OrderSerializerFields <= DeclaredFields + FieldNames;
  }
}
