/** The builder of a Flowable field extension (a named constant or
    expression handed to a workflow task). A literal value wins over an
    expression, and a builder with neither cannot build. */
module FieldExtensionBuilders {
  import opened Wrappers

  /** The built extension; None stands for a field left null. */
  datatype FieldExtension = FieldExtension(fieldName: Option<string>, stringValue: Option<string>, expression: Option<string>)

  const MISSING_VALUE := "FieldExtension must have either a 'fieldValue' or an  'expression'"

  class FieldExtensionBuilder {
    var fieldName: Option<string>
    var fieldValue: Option<string>
    var expression: Option<string>

    /** A new builder has no name, no value and no expression. */
    constructor()
      ensures fieldName.None? && fieldValue.None? && expression.None?
    {
      fieldName := None;
      fieldValue := None;
      expression := None;
    }

    method FieldName(name: Option<string>) returns (b: FieldExtensionBuilder)
      modifies this
      ensures b == this
      ensures fieldName == name && fieldValue == old(fieldValue) && expression == old(expression)
    {
      fieldName := name;
      b := this;
    }

    method FieldValue(value: Option<string>) returns (b: FieldExtensionBuilder)
      modifies this
      ensures b == this
      ensures fieldValue == value && fieldName == old(fieldName) && expression == old(expression)
    {
      fieldValue := value;
      b := this;
    }

    method Expression(expr: Option<string>) returns (b: FieldExtensionBuilder)
      modifies this
      ensures b == this
      ensures expression == expr && fieldName == old(fieldName) && fieldValue == old(fieldValue)
    {
      expression := expr;
      b := this;
    }

    /** `build`: the name is always copied; the value is used when set, the
        expression only when there is no value, and with neither it fails. */
    function Build(): (r: Result<FieldExtension, string>)
      reads this
      ensures r.Success? <==> fieldValue.Some? || expression.Some?
      ensures r.Success? ==> r.value.fieldName == fieldName
      ensures fieldValue.Some? ==> r.Success? && r.value.stringValue == fieldValue && r.value.expression.None?
      ensures fieldValue.None? && expression.Some? ==>
        r.Success? && r.value.expression == expression && r.value.stringValue.None?
      ensures r.Failure? ==> r.error == MISSING_VALUE
    {
      var e := FieldExtension(fieldName, None, None);
      if fieldValue.Some? then Success(e.(stringValue := fieldValue))
      else if expression.Some? then Success(e.(expression := expression))
      else Failure(MISSING_VALUE)
    }
  }

  /** A chain that sets a name, a value and an expression builds an extension
      with the value and without the expression. */
  method ValueWinsOverExpression(name: string, value: string, expr: string) returns (r: Result<FieldExtension, string>)
    ensures r == Success(FieldExtension(Some(name), Some(value), None))
  {
    var b := new FieldExtensionBuilder();
    b := b.FieldName(Some(name));
    b := b.Expression(Some(expr));
    b := b.FieldValue(Some(value));
    r := b.Build();
  }

  /** A chain that sets only a name and finds neither value nor expression
      fails. */
  method NameOnlyFails(name: string) returns (r: Result<FieldExtension, string>)
    ensures r == Failure(MISSING_VALUE)
  {
    var b := new FieldExtensionBuilder();
    b := b.FieldName(Some(name));
    r := b.Build();
  }
}
