/**
 * The structured errors of sdk/errors.go: a category, the failing operation, a message, optional
 * details and the wrapped error.
 */
module SdkErrors {
  import opened Wrappers

  datatype ErrorType = TypeValidation | TypeExtraction | TypeGeneration | TypeTemplateType | TypeFileSystem | TypeSchema

  /** The string value of each ErrorType constant. */
  function TypeName(t: ErrorType): string {
    match t
    case TypeValidation => "validation"
    case TypeExtraction => "extraction"
    case TypeGeneration => "generation"
    case TypeTemplateType => "template_type"
    case TypeFileSystem => "filesystem"
    case TypeSchema => "schema"
  }

  /** An SDK error wrapping an underlying error of type U (None for nil). */
  datatype SdkError<+U> = SdkError(typ: ErrorType, message: string, operation: string, details: string, underlying: Option<U>)

  const ListTemplatesHint: string := "Use ListTemplates() to see available types"

  /** Error(): the category, the operation and the message, then the details in parentheses if any. */
  function ErrorText<U>(e: SdkError<U>): string {
    var head := TypeName(e.typ) + " error in " + e.operation + ": " + e.message;
    if e.details != "" then head + " (" + e.details + ")" else head
  }

  /** Unwrap: the wrapped error. */
  function Unwrap<U>(e: SdkError<U>): Option<U> {
    e.underlying
  }

  function NewValidationError<U>(operation: string, message: string, details: string): SdkError<U> {
    SdkError(TypeValidation, message, operation, details, None)
  }

  function NewExtractionError<U>(operation: string, message: string, underlying: Option<U>): SdkError<U> {
    SdkError(TypeExtraction, message, operation, "", underlying)
  }

  function NewGenerationError<U>(operation: string, message: string, underlying: Option<U>): SdkError<U> {
    SdkError(TypeGeneration, message, operation, "", underlying)
  }

  /** The error for a type or schema name that is not known; it points at ListTemplates. */
  function NewTemplateTypeError<U>(operation: string, templateType: string): SdkError<U> {
    SdkError(TypeTemplateType, "unknown template type: " + templateType, operation, ListTemplatesHint, None)
  }

  function NewFileSystemError<U>(operation: string, message: string, underlying: Option<U>): SdkError<U> {
    SdkError(TypeFileSystem, message, operation, "", underlying)
  }

  function NewSchemaError<U>(operation: string, message: string, underlying: Option<U>): SdkError<U> {
    SdkError(TypeSchema, message, operation, "", underlying)
  }

  /** The six categories have six different names. */
  lemma TypeNamesDistinct(s: ErrorType, t: ErrorType)
    requires s != t
    ensures TypeName(s) != TypeName(t)
  {
    var a, b := TypeName(s), TypeName(t);
    if |a| == |b| {
      // the names of equal length differ in their first letter
      assert a[0] != b[0];
    }
  }

  /**
   * Every text starts with "<type> error in <op>: <msg>"; details add " (<details>)" to the
   * text without them, and an error without details reads exactly that head.
   */
  lemma ErrorTextShape<U>(e: SdkError<U>)
    ensures var head := TypeName(e.typ) + " error in " + e.operation + ": " + e.message;
      && head <= ErrorText(e)
      && ErrorText(e.(details := "")) == head
      && (e.details != "" ==> ErrorText(e) == ErrorText(e.(details := "")) + " (" + e.details + ")")
      && (e.details == "" <==> ErrorText(e) == head)
  {
  }

  /**
   * Each constructor sets its own category and keeps the operation and message; only the
   * validation error carries details and only the last four wrap an error.
   */
  lemma ConstructorsKeepFields<U>(op: string, msg: string, details: string, u: Option<U>)
    ensures var v := NewValidationError<U>(op, msg, details);
      v.typ == TypeValidation && v.operation == op && v.message == msg && v.details == details && Unwrap(v) == None
    ensures var x := NewExtractionError(op, msg, u);
      x.typ == TypeExtraction && x.operation == op && x.message == msg && x.details == "" && Unwrap(x) == u
    ensures var g := NewGenerationError(op, msg, u);
      g.typ == TypeGeneration && g.operation == op && g.message == msg && g.details == "" && Unwrap(g) == u
    ensures var f := NewFileSystemError(op, msg, u);
      f.typ == TypeFileSystem && f.operation == op && f.message == msg && f.details == "" && Unwrap(f) == u
    ensures var s := NewSchemaError(op, msg, u);
      s.typ == TypeSchema && s.operation == op && s.message == msg && s.details == "" && Unwrap(s) == u
  {
  }

  /** A template-type error names the type in its message and ends with the ListTemplates hint. */
  lemma TemplateTypeErrorText<U>(op: string, t: string)
    ensures var e := NewTemplateTypeError<U>(op, t);
      && e.typ == TypeTemplateType && e.operation == op && Unwrap(e) == None
      && e.message == "unknown template type: " + t
      && ErrorText(e) == ErrorText(e.(details := "")) + " (" + ListTemplatesHint + ")"
  {
  }
}
