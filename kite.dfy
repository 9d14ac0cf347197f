/**
 * The Kite SDK as the import job sees it: the compression codecs and their
 * names, storage formats, dataset descriptors, the dataset catalog behind
 * Datasets.exists/load/create, and the output bindings made through
 * DatasetKeyOutputFormat.ConfigBuilder.
 */
module Kite {
  import opened Wrappers
  import opened AvroSchemas

  /** Kite's CompressionType codecs. */
  datatype CompressionType = Snappy | Deflate | Bzip2 | Lzo | Uncompressed {
    /** CompressionType.getName(). */
    function Name(): string {
      match this
      case Snappy => "snappy"
      case Deflate => "deflate"
      case Bzip2 => "bzip2"
      case Lzo => "lzo"
      case Uncompressed => "uncompressed"
    }
  }

  /**
   * CompressionType.forName: the codec with exactly this name; None stands
   * for the IllegalArgumentException thrown for any other name.
   */
  function ForName(name: string): (r: Option<CompressionType>)
    ensures r.Some? ==> r.value.Name() == name
    ensures r.None? ==> forall c: CompressionType :: c.Name() != name
  {
    if name == "snappy" then Some(Snappy)
    else if name == "deflate" then Some(Deflate)
    else if name == "bzip2" then Some(Bzip2)
    else if name == "lzo" then Some(Lzo)
    else if name == "uncompressed" then Some(Uncompressed)
    else None
  }

  /** Every codec is found again under its own name. */
  lemma ForNameName(c: CompressionType)
    ensures ForName(c.Name()) == Some(c)
  {
  }

  /** Kite's storage formats. */
  datatype Format = Avro | Parquet | Csv

  /** Formats.PARQUET.getDefaultCompressionType(). */
  const ParquetDefaultCompression: CompressionType := Snappy

  /** A DatasetDescriptor as built by DatasetDescriptor.Builder. */
  datatype Descriptor = Descriptor(schema: Schema, format: Format, compression: CompressionType)

  /** A Dataset handle: where it lives and how it was described. */
  datatype Dataset = Dataset(uri: string, descriptor: Descriptor)

  /** The three ways DatasetKeyOutputFormat.ConfigBuilder binds a job's output to a dataset. */
  datatype OutputMode = WriteTo | AppendTo | Overwrite

  /** One call to writeTo, appendTo or overwrite on the job's ConfigBuilder. */
  datatype OutputBinding = OutputBinding(mode: OutputMode, dataset: Dataset)

  /** The datasets reachable through Kite's Datasets class, by URI. */
  class Catalog {
    var datasets: map<string, Descriptor>

    constructor (datasets: map<string, Descriptor>)
      ensures this.datasets == datasets
    {
      this.datasets := datasets;
    }

    /** Datasets.exists(uri). */
    predicate Exists(uri: string)
      reads this
      ensures Exists(uri) <==> Load(uri).Some?
    {
      uri in datasets
    }

    /** Datasets.load(uri); None stands for DatasetNotFoundException. */
    function Load(uri: string): (r: Option<Dataset>)
      reads this
      ensures r.Some? <==> uri in datasets
      ensures r.Some? ==> r.value.uri == uri && r.value.descriptor == datasets[uri]
    {
      if uri in datasets then Some(Dataset(uri, datasets[uri])) else None
    }

    /**
     * Datasets.create(uri, descriptor): registers a new dataset; None stands
     * for DatasetExistsException, in which case nothing changes.
     */
    method Create(uri: string, descriptor: Descriptor) returns (r: Option<Dataset>)
      modifies this
      ensures r.Some? <==> uri !in old(datasets)
      ensures r.Some? ==> r.value == Dataset(uri, descriptor) && datasets == old(datasets)[uri := descriptor]
      ensures r.None? ==> datasets == old(datasets)
    {
      if uri in datasets {
        r := None;
      } else {
        datasets := datasets[uri := descriptor];
        r := Some(Dataset(uri, descriptor));
      }
    }
  }
}
