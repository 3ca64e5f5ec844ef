/** Class and feature names shared by the Cool semantic analyser and code generator. */
module CoolNames {

  /** `_no_class` and the five basic classes have fixed symbols; every other class is `User`. */
  datatype ClassName = NoClass | ObjectC | IOC | IntC | BoolC | StringC | User(id: string)

  type Name = string

  const SELF: Name := "self"
  const COPY: Name := "copy"
}
