/** The variant editor of the products form (src/Products.jsx): a draft
    variant is appended to the form's list when complete, entries are
    removed by position, and a submission that gets an answer resets the
    form. */
module Products {
  import opened Collections

  /** One variant row: attribute, value and the extra price as typed. */
  datatype Variant = Variant(attribute: string, value: string, extraPrice: string)

  const EmptyVariant := Variant("", "", "")

  /** The product type selector of the form. */
  datatype ProductType = Service | Goods

  /** The fields of the products form. */
  datatype ProductFields = ProductFields(name: string, description: string, productType: ProductType,
                                         category: string, salesPrice: string, costPrice: string,
                                         isRecurring: bool)

  const DefaultFields := ProductFields("", "", Service, "", "", "", false)

  /** A draft can be added when both its attribute and its value are
      filled in. */
  predicate Complete(v: Variant) {
    v.attribute != "" && v.value != ""
  }

  /** The form's state, which `addVariant`, `removeVariant` and
      `handleSubmit` replace. */
  class ProductForm {
    var fields: ProductFields
    var variants: seq<Variant>
    var draft: Variant

    constructor ()
      ensures fields == DefaultFields && variants == [] && draft == EmptyVariant
    {
      fields := DefaultFields;
      variants := [];
      draft := EmptyVariant;
    }

    /** `addVariant`: a complete draft joins the end of the list and the
        draft is emptied; an incomplete one changes nothing. */
    method AddVariant()
      modifies this
      ensures Complete(old(draft)) ==> variants == old(variants) + [old(draft)] && draft == EmptyVariant
      ensures !Complete(old(draft)) ==> variants == old(variants) && draft == old(draft)
      ensures fields == old(fields)
    {
      if draft.attribute != "" && draft.value != "" {
        variants := variants + [draft];
        draft := EmptyVariant;
      }
    }

    /** `removeVariant(i)`: `splice(i, 1)` on a copy of the list. */
    method RemoveVariant(i: nat)
      modifies this
      ensures variants == RemoveAt(old(variants), i)
      ensures i < |old(variants)| ==> |variants| == |old(variants)| - 1
      ensures fields == old(fields) && draft == old(draft)
    {
      var copy := variants;
      copy := RemoveAt(copy, i);
      variants := copy;
    }

    /** `handleSubmit`: the form is sent as it is. When the request gets
        an answer (whatever its status) the form is reset to its defaults
        with an empty variant list; when the request itself fails the
        handler throws before the reset and the form stays as it was. The
        draft is left as it is either way. */
    method Submit(answered: bool) returns (sent: (ProductFields, seq<Variant>))
      modifies this
      ensures sent == (old(fields), old(variants))
      ensures answered ==> fields == DefaultFields && variants == []
      ensures !answered ==> fields == old(fields) && variants == old(variants)
      ensures draft == old(draft)
    {
      sent := (fields, variants);
      if !answered {
        return;
      }
      fields := DefaultFields;
      variants := [];
    }
  }
}
