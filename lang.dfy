/** The few Java notions the kernel core relies on: possibly-null values,
    opaque objects compared by identity, and the exceptions its methods throw. */
module Lang {

  /** A value that may be Java's null (`None`). */
  datatype Option<+T> = None | Some(value: T)

  /** A fully qualified Java class or interface name. */
  type TypeName = string

  /** An opaque Java object. Equality of `Obj` references is object identity.
      `types` is the set of classes and interfaces its runtime class is
      assignable to; it stands for `Class.isAssignableFrom`. */
  class Obj {
    const types: set<TypeName>

    constructor (types: set<TypeName>)
      ensures this.types == types
    {
      this.types := types;
    }
  }

  /** `t.isAssignableFrom(o.getClass())` */
  predicate HasType(o: Obj, t: TypeName)
  {
    t in o.types
  }

  /** The reasons a name-server call throws a `NamingException`. The source
      throws one exception class and tells the cases apart by message only. */
  datatype NamingError =
    | InvalidArgument   // null or blank name, null instance or null type
    | NameNotFound      // the name has no bucket
    | NoRegistration    // the name has a bucket, but it is empty
    | TypeMismatch      // a looked-up instance is not of the requested type
    | NotRegistered     // the bucket does not hold the instance to remove

  /** The exceptions that can leave the modelled methods. */
  datatype Exception =
    | NamingException(error: NamingError)
    | NullPointerException
    | NumberFormatException
    | ClassNotFoundException
    | SubsystemFailure   // an Exception thrown by a subsystem's stop()

  /** A Java call either returns a value or throws. */
  datatype Outcome<+T> = Returned(value: T) | Raised(exception: Exception)
}
