/** Option and Result values, for operations of the source that can return
    nothing or signal an error (an empty cv::Mat, a thrown std::invalid_argument). */
module Outcomes {

  datatype Option<+T> = None | Some(value: T)

  datatype Result<+T> = Success(value: T) | Failure(error: string)
}
