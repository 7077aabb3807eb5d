/** Extraction helpers of mappers/beast2/.../Utils.java: reading a number, a
    variable reference or a dimension out of a `parameters`/`arguments`
    object. */
module Utils {

  import opened Json
  import opened Results
  import opened Doubles

  /** `extractNumericValue`: the number stored under `paramName`, or 1.0 for
      every other node (absent field, expression object, text, ...). */
  function ExtractNumericValue(paramsNode: Json, paramName: string): (r: Num)
    ensures r.Lit?
    ensures IsNumber(Path(paramsNode, paramName)) ==> r == AsDouble(Path(paramsNode, paramName))
    ensures !IsNumber(Path(paramsNode, paramName)) ==> r == Lit(1.0)
  {
    var valueNode := Path(paramsNode, paramName);
    if IsNumber(valueNode) then AsDouble(valueNode)
    else if valueNode.Object? && Has(valueNode, "expression") then Lit(1.0)
    else Lit(1.0)
  }

  /** A missing hyperparameter and an expression object both read as 1.0. */
  lemma MissingOrExpressionReadsOne(paramsNode: Json, paramName: string)
    requires !Has(paramsNode, paramName) || Has(Path(paramsNode, paramName), "expression")
    ensures ExtractNumericValue(paramsNode, paramName) == Lit(1.0)
  {
  }

  /** A reference is either `{"variable": name}` or a bare string. */
  predicate IsVariableReference(node: Json)
  {
    (node.Object? && Has(node, "variable")) || node.TextNode?
  }

  /** `extractVariableReference`: the `variable` field's text of an object
      that has one, the string itself for a textual node, and an
      IllegalArgumentException for every other node. */
  function ExtractVariableReference(paramsNode: Json, paramName: string): (r: Result<string>)
    ensures r.Ok? <==> IsVariableReference(Path(paramsNode, paramName))
    ensures Path(paramsNode, paramName).TextNode? ==> r == Ok(Path(paramsNode, paramName).s)
    ensures Has(Path(paramsNode, paramName), "variable") ==>
              r == Ok(AsText(Path(Path(paramsNode, paramName), "variable")))
    ensures r.Fail? ==> r.message == "Cannot extract variable reference from parameter: " + paramName
  {
    var valueNode := Path(paramsNode, paramName);
    if valueNode.Object? && Has(valueNode, "variable") then Ok(AsText(Path(valueNode, "variable")))
    else if valueNode.TextNode? then Ok(valueNode.s)
    else Fail("Cannot extract variable reference from parameter: " + paramName)
  }

  /** `extractDimension`: 1 when absent, the int itself (which may be zero
      or negative) for an int node, the placeholder 10 for an expression or
      variable object, and 1 for any other form. */
  function ExtractDimension(paramsNode: Json): (r: int)
    ensures !Has(paramsNode, "dimension") ==> r == 1
    ensures Path(paramsNode, "dimension").IntNode? ==> r == Path(paramsNode, "dimension").i
    ensures Has(Path(paramsNode, "dimension"), "expression") || Has(Path(paramsNode, "dimension"), "variable") ==> r == 10
    ensures (!Path(paramsNode, "dimension").IntNode? &&
             !Has(Path(paramsNode, "dimension"), "expression") && !Has(Path(paramsNode, "dimension"), "variable")) ==> r == 1
    ensures r != 1 && r != 10 ==> Path(paramsNode, "dimension").IntNode?
  {
    if Has(paramsNode, "dimension") then
      var d := Path(paramsNode, "dimension");
      if d.IntNode? then d.i
      else if d.Object? && Has(d, "expression") then 10
      else if d.Object? && Has(d, "variable") then 10
      else 1
    else 1
  }

  /** `variableExists`. */
  function VariableExists(node: Json, varName: string): (r: bool)
    ensures r <==> node.Object? && exists i :: 0 <= i < |node.fields| && node.fields[i].0 == varName
  {
    Has(node, varName)
  }
}
