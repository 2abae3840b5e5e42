/** The message declarations that fix the identity of a fixture, with the field
    tags given beside each (src/proto/systemtestrs/src/lib.rs:7-100). */
module Messages {
  import opened Base

  datatype SchemaBlob = SchemaBlob(
    schemaId: Str,     // 1
    contents: Bytes)   // 2

  datatype ValueKind =
    | StrValue(str: Str)          // 1
    | DataValue(data: Bytes)      // 3
    | BlobValue(blob: SchemaBlob) // 4
    | IntValue(number: int32)     // 5

  /** `None` is the message with no oneof member set, its default. */
  datatype Value = Value(kind: Option<ValueKind>)

  datatype UseScope =
    | Unrestricted      // 1, an empty message
    | ClientRestricted  // 2
    | SingleUse         // 3

  datatype Sharing = Sharing(
    useScope: Option<UseScope>,          // 1, 2, 3
    maximumConcurrentConnections: int64) // 4

  datatype Plugin =
    | BinaryPath(path: Str)        // 2
    | ContainerRef(reference: Str) // 3

  datatype FixtureDescription = FixtureDescription(
    implId: Str,                  // 1
    plugin: Option<Plugin>,       // 2, 3
    inputs: map<Str, Value>,      // 4
    imageInputs: seq<Str>,        // 5
    fileInputs: seq<Str>,         // 6
    sharing: Option<Sharing>,     // 7
    startupTimeoutSeconds: int64, // 8
    name: Str)                    // 9

  type Outputs = map<Str, Value>

  const DEFAULT_BLOB := SchemaBlob([], [])
  const DEFAULT_VALUE := Value(None)
  const DEFAULT_SHARING := Sharing(None, 0)
  const DEFAULT_DESCRIPTION := FixtureDescription([], None, map[], [], [], None, 0, [])
}
