/**
 * The exceptions the executor raises or lets through. The first group mirrors
 * actions/exceptions.py; the second group names the Python built-in exceptions
 * that the modelled code raises through its own expressions.
 */
module Exceptions {

  datatype Error =
    // actions/exceptions.py
    | ScalingGroupNotFound
    | VnfdUnexpectedStatusCode
    | VnfScaleNotCompleted
    | VCacheConfigurationFailed
    | VdnsConfigurationFailed
    | TranscoderProfileUpdateFailed
    | TranscoderPlacementFailed
    | CompressionEngineConfigurationFailed
    | TranscoderSpectatorsQualityConfigurationFailed
    | InvalidTranscoderSpectatorsQualities
    // raised by `requests` for a 4xx or 5xx reply (`raise_for_status`)
    | HttpError
    // Python built-ins raised by the executor's own code
    | TypeError
    | ValueError
    | AttributeError
    | KeyError
    // a bare `raise Exception(...)`
    | PlainException
    // any exception raised inside a collaborator that is not modelled
    // (credential minting, the orchestrator's REST surface, decoding of a reply)
    | CollaboratorFailure
}
