/**
 * The precision override applied before the Whisper model is loaded:
 * half precision on a CUDA device is replaced by single precision, since
 * the Pascal GPUs the script targets do not run float16 efficiently.
 */
module ComputeType {

  /** The compute type the model is actually loaded with. */
  function EffectiveComputeType(device: string, computeType: string): (r: string)
    ensures device == "cuda" ==> r != "float16"
    ensures device != "cuda" ==> r == computeType
    ensures computeType != "float16" ==> r == computeType
    ensures r != computeType <==> device == "cuda" && computeType == "float16"
    ensures r != computeType ==> r == "float32"
  {
    if device == "cuda" && computeType == "float16" then "float32" else computeType
  }

}
