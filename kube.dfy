/** Value types shared by the Kubernetes object builders. */
module KubeTypes {
  /** Go's `int32`, as used for ports and replica counts. */
  newtype int32 = x: int | -0x8000_0000 <= x < 0x8000_0000

  /** `intstr.IntOrString`: a port given by number or by name. */
  datatype IntOrString = IntVal(intVal: int32) | StrVal(strVal: string)
}
