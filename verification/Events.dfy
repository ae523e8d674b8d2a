/** Event schemas: the typed payloads and the envelope every message is wrapped in. */
module Events {
  import opened Topics

  type Id = string

  /** Stands for the pair a storage URI names: the key prefix and the object's base name. */
  datatype Uri = Uri(owner: Id, name: string)

  datatype Option<+T> = None | Some(value: T)

  datatype Payload =
    | DocumentIngested(jobId: Id, documentId: Id, filename: string, contentType: string,
                       sizeBytes: nat, storageUri: Uri)
    | DocumentExtracted(jobId: Id, documentId: Id, textUri: Uri, textLength: nat,
                        pageCount: nat, extractionMethod: string)
    | DocumentEnriched(jobId: Id, documentId: Id, viewFilename: Option<string>,
                       classification: Option<string>, summary: Option<string>,
                       chunkCount: nat, vectorIds: seq<string>)
  {
    /** The discriminator stored with each payload. */
    function EventType(): Stage {
      match this
      case DocumentIngested(_, _, _, _, _, _) => Ingested
      case DocumentExtracted(_, _, _, _, _, _) => Extracted
      case DocumentEnriched(_, _, _, _, _, _, _) => Enriched
    }
  }

  datatype Envelope = Envelope(eventId: Id, eventType: Stage, documentId: Id, correlationId: Id,
                               attempt: nat, source: string, payload: Payload)
  {
    /** The retried copy: everything but the counter is unchanged. */
    function NextAttempt(): Envelope {
      this.(attempt := attempt + 1)
    }

    /** The message with its retry counter erased: what a retry must preserve. */
    function Erased(): Envelope {
      this.(attempt := 0)
    }
  }

  function MakeEvent(payload: Payload, source: string, eventId: Id, correlationId: Id): Envelope {
    Envelope(eventId, payload.EventType(), payload.documentId, correlationId, 0, source, payload)
  }

  function TopicFor(envelope: Envelope): Topic {
    Pipeline(envelope.eventType)
  }
}
