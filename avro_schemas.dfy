/**
 * Avro record schemas, seen from the outside. The structure of a schema and
 * the rules of Avro schema resolution belong to the Avro and Kite libraries;
 * the import job only asks two questions of them, which are kept here as
 * function values supplied by the caller.
 */
module AvroSchemas {

  /** An immutable Avro record schema; its structure is not modelled. */
  type Schema

  /**
   * What the schema libraries answer:
   *  - canRead(writtenWith, readWith): data written with the first schema can
   *    be read with the second (Kite's SchemaValidationUtil.canRead);
   *  - toJson(s): the schema's JSON text (Avro's Schema.toString()).
   */
  datatype SchemaLibrary = SchemaLibrary(
    canRead: (Schema, Schema) -> bool,
    toJson: Schema -> string)
}
